# Build configuration of vite-wagmi-electron, modelled in Dafny

The repository's only logic is the `defineConfig` callback in `vite.config.ts`.
It reads Vite's `command`, the `VSCODE_DEBUG` and `BASE` variables and
package.json's `dependencies`, and derives three flags: `isServe`, `isBuild` and
`sourcemap`. It then returns one configuration object, which holds:

- the plugin pipeline, with the Electron **main** and **preload** build targets
  configured inside the `electron` plugin;
- the renderer's vendor chunks (`manualChunks`);
- the pages plugin's `baseRoute`;
- the debug-only dev-server binding.

The icon loader's SVG transform is the other piece of logic in the file.

The model is pure, like the source. Its parts:

- `Wrappers` (`wrappers.dfy`): `Option`, which stands for JavaScript's `undefined`.
- `Env` (`env.dfy`): JavaScript truthiness of an environment variable
  (`!!v` and `v || ''`). An unset variable and the empty string are both falsy.
- `SvgIcons` (`svg_icons.dfy`): the `/^<svg /` rewrite, its inverse, and its
  properties. The rewrite adds 20 characters, touches only the leading
  occurrence and is not idempotent.
- `Chunks` (`chunks.dfy`): the three vendor groups, which chunk each
  dependency falls into, and the proof that no dependency is listed by two groups.
- `ViteConfig` (`vite_config.dfy`): the flags, `Object.keys` of the
  dependencies, the main and preload targets, `onstart` as a returned action,
  the plugin pipeline as a fixed sequence, `server`, and `Resolve`, which
  builds the whole object.

Points where the code's behaviour is easy to mistake:

- An unrecognised `command` is not rejected. Both `isServe` and `isBuild` are
  then false, and the source map follows `VSCODE_DEBUG` alone.
- The externals are an ordered list (`Object.keys` order), not a set.
- The output directories are `dist-electron/main` and `dist-electron/preload`.
- The renderer target (`renderer: {}`) gets no source-map or minify setting
  from this file. Its only build setting here is `manualChunks`; besides
  that, the renderer's configuration carries `base`, the pages plugin's
  `baseRoute` and `server`.
- `server` is `VSCODE_DEBUG && {…}`. An unset variable gives `undefined` and
  an empty one gives `''`. The model keeps those two cases apart
  (`Undefined`, `EmptyString`). Neither is a binding.
- The main target's source map is the boolean flag itself, so it is `false`
  rather than unset when off. The preload's is `'inline'` or `undefined`,
  never `true`.

## Model

| member | source | states |
|---|---|---|
| `Env.OrEmpty` | vite.config.ts:90 | the `BASE` fallback to the empty string is the variable's text when it is set and non-empty, and the empty string exactly when it is not |
| `Env.Truthy` | vite.config.ts:26 | `!!VSCODE_DEBUG` (also the tests at lines 42 and 131): an unset variable and the empty string are falsy, any other text is truthy |
| `SvgIcons.FillCurrentColor` | vite.config.ts:84-86 | text starting with `<svg ` becomes `<svg fill="currentColor" ` followed by the rest of the input unchanged, 20 characters longer; any other text is returned unchanged |
| `SvgIcons.FilledIffOpen` | vite.config.ts:85 | the output begins with the filled opening tag if and only if the input began with `<svg ` |
| `SvgIcons.StripFillUndoesFill` | vite.config.ts:85 | removing the inserted attribute recovers every input exactly, so the rewrite loses no information |
| `SvgIcons.FillUndoesStrip` | vite.config.ts:85 | on text already carrying the attribute at its head, stripping and then filling recovers the text |
| `SvgIcons.LeadingOnly` | vite.config.ts:85 | every character after the opening tag is copied to the position 20 further on, so later `<svg ` occurrences are untouched (anchored pattern, no `g` flag) |
| `SvgIcons.FillTwiceInsertsTwice` | vite.config.ts:85 | applying the rewrite twice inserts the attribute twice and differs from applying it once: the rewrite is not idempotent |
| `Chunks.ManualChunks` | vite.config.ts:119-123 | the vendor plan has exactly three groups |
| `Chunks.Holders` | vite.config.ts:119-123 | lists exactly the groups that list a dependency, in increasing order |
| `Chunks.ChunkOf` | vite.config.ts:119-123 | a dependency gets no chunk exactly when no group lists it; a chunk it gets is one whose group lists it (on a plan listing it twice, which Rollup rejects, the model picks the first group) |
| `Chunks.AtMostOneHolder` | vite.config.ts:119-123 | in any plan whose groups are disjoint, each dependency is listed by at most one group |
| `Chunks.ManualChunksWellFormed` | vite.config.ts:119-123 | `react-vendor`, `wagmi-vendor` and `ui-vendor` are pairwise disjoint and have distinct names |
| `Chunks.VendorChunkOf` | vite.config.ts:119-123 | each dependency lands in at most one vendor chunk: React, its router and DOM in `react-vendor`; wagmi and viem in `wagmi-vendor`; antd in `ui-vendor`; anything else in none |
| `ViteConfig.Flags` | vite.config.ts:24-26 | `isServe` iff the command is `serve`, `isBuild` iff it is `build`, never both; `sourcemap` iff serving or `VSCODE_DEBUG` is set and non-empty |
| `ViteConfig.SourcemapTruthTable` | vite.config.ts:24-26 | the four rows of the source-map truth table; an empty `VSCODE_DEBUG` counts as unset; any other command sets neither flag and is not rejected |
| `ViteConfig.Keys` | vite.config.ts:54 | `Object.keys` yields one name per dependency property, in property order |
| `ViteConfig.Externals` | vite.config.ts:54 | the externals are the dependency names in manifest order, and empty when package.json has no `dependencies` field |
| `ViteConfig.ExternalsDistinct` | vite.config.ts:54 | distinct property names give an external list without repetitions |
| `ViteConfig.OnStart` | vite.config.ts:41-47 | the hook starts the app exactly when `VSCODE_DEBUG` is not truthy, and otherwise only logs `[startup] Electron App` |
| `ViteConfig.MainTarget` | vite.config.ts:38-58 | main entry `electron/main/index.ts`; boolean source map equal to the flag; minify iff building; output `dist-electron/main`; the given externals; the `onstart` action |
| `ViteConfig.PreloadTarget` | vite.config.ts:59-73 | preload input `electron/preload/index.ts`; source map `inline` iff the flag and unset otherwise; minify iff building; output `dist-electron/preload`; the given externals |
| `ViteConfig.Name` | vite.config.ts:5-16 | each plugin value comes from one of the ten imported plugin packages |
| `ViteConfig.Plugins` | vite.config.ts:35-115 | the plugin array holds the ten plugins, each kind at its fixed position; the Electron entry carries the given main and preload targets; the Icons entry's loader transform is the SVG fill rewrite; the Pages entry carries the given base route |
| `ViteConfig.Names` | vite.config.ts:35-115 | the pipeline's name list has one entry per plugin, position by position |
| `ViteConfig.OrderedNames` | vite.config.ts:35-111 | plugins at their fixed positions come from the ten packages in the pipeline's order |
| `ViteConfig.Server` | vite.config.ts:130-138 | a binding exactly when `VSCODE_DEBUG` is truthy, and then exactly `127.0.0.1:7777`; an unset variable gives `undefined` and an empty one `''` |
| `ViteConfig.Resolve` | vite.config.ts:20-140 | the returned object: the ten plugins at their fixed positions (`PipelineFixed` gives the package order); the main and preload targets are exactly `MainTarget` and `PreloadTarget` of the flags and externals (entries `electron/main/index.ts` and `electron/preload/index.ts`, outputs `dist-electron/main` and `dist-electron/preload`); source maps and minification from the command and `VSCODE_DEBUG`; identical externals equal to the dependency names; `onstart` starts the app or logs; `server` is `undefined`, `''` or the binding `127.0.0.1:7777` exactly as `Server` says; `base` passed through; `baseRoute` is `BASE` or `""`; the icon transform is the SVG fill rewrite; the vendor chunks |
| `ViteConfig.Mode` | vite.config.ts:50-65 | a target emits no map exactly when its setting is `false` or undefined, a separate map file exactly for `true`, and an inline map exactly for `'inline'` |
| `ViteConfig.SourceMapModes` | vite.config.ts:50-65 | with source maps on, main writes a separate map file and preload an inline one; main is never inline and preload never a separate file |
| `ViteConfig.PipelineFixed` | vite.config.ts:35-115 | the plugin name list is the pipeline's order for every invocation |
| `ViteConfig.PipelineDistinct` | vite.config.ts:5-16 | no plugin package appears twice in the pipeline |
| `ViteConfig.ServeWithoutDebugger` | vite.config.ts:24-138 | `serve` without `VSCODE_DEBUG`: main map on, preload map inline, no minification, the app is started, no server binding |
| `ViteConfig.BuildUnderDebugger` | vite.config.ts:24-138 | `build` with `VSCODE_DEBUG` set: maps on, both targets minified, only the log line, binding at `127.0.0.1:7777` |
| `ViteConfig.PlainBuildNoDependencies` | vite.config.ts:24-138 | `build` without `VSCODE_DEBUG` and with no dependencies: empty externals, maps off, both minified, no binding |

## Left out

- `rmSync('dist-electron', …)` (line 22): a filesystem side effect that feeds nothing into the returned object.
- `loadEnv` (line 21) and its precedence between `.env` files and the process environment: `BASE` is an input of the model, already resolved.
- The `@/` alias and the icon directory (lines 32, 84): both come from Node's `path.resolve` on `__dirname`.
- `new URL('http://127.0.0.1:7777/')` (line 133): its hostname and port are taken as the constants `"127.0.0.1"` and `7777`.
- The internals of every plugin (`react`, `electron`, `Checker`, `Icons`, `Pages`, `Unocss`, `AutoImport`, `EslintPlugin`, `Analyze`, `nodePolyfills`): foreign libraries. The pipeline is a fixed sequence of plugin values that carry the options this file passes them; the Icons entry carries the loader's SVG transform (`SvgIcons.FillCurrentColor`) but not the icon directory it reads. How `Pages` matches its `**/[A-Z]*.tsx` exclusion glob is not modelled.
- How Rollup applies `manualChunks` beyond the grouping itself (the modules each chunk pulls in with it).
- `console.log` output: only the choice between logging and calling `startup()` is modelled, as a `StartAction` value.
- `ViteConfig.OnStart`: the hook reads `VSCODE_DEBUG` again when Electron starts; the model uses the value seen when the configuration was built.
- `optimizeDeps` (lines 127-129): a constant with no logic.
- The commented-out `legacy` plugin and wagmi auto-imports (lines 4, 98-100, 112-114): dead code.
- The order of `Object.keys`: the model takes the `dependencies` object as its list of properties already in own-property order, which is the order `Object.keys` returns them in. How JSON parsing orders numeric-looking keys and repeated keys is not modelled.
