/**
 * The `defineConfig` callback of the desktop app's build: from Vite's
 * command, the VSCODE_DEBUG and BASE variables and package.json's
 * `dependencies`, it derives the run flags and returns one configuration
 * object holding the plugin pipeline (with the Electron main and preload
 * build targets inside it), the renderer's vendor chunks and the dev server.
 */
module ViteConfig {
  import opened Wrappers
  import opened Env
  import opened Chunks
  import SvgIcons

  /** One property of package.json's `dependencies` object: name and version range. */
  datatype Dependency = Dependency(name: string, version: string)

  /**
   * What the callback reads. `dependencies` lists the manifest's dependency
   * properties in the object's own-property order, and is None when
   * package.json has no `dependencies` field.
   */
  datatype Invocation = Invocation(
    command: string,
    debug: Option<string>,
    base: Option<string>,
    dependencies: Option<seq<Dependency>>)

  /** The three flags derived before the object is built. */
  datatype RunFlags = RunFlags(isServe: bool, isBuild: bool, sourcemap: bool)

  function Flags(command: string, debug: Option<string>): (f: RunFlags)
    ensures f.isServe <==> command == "serve"
    ensures f.isBuild <==> command == "build"
    ensures !(f.isServe && f.isBuild)
    ensures f.sourcemap <==> f.isServe || Truthy(debug)
  {
    var isServe := command == "serve";
    RunFlags(isServe, command == "build", isServe || Truthy(debug))
  }

  /** The source-map flag against its four-row truth table, and commands Vite never sends. */
  lemma SourcemapTruthTable(debug: Option<string>)
    ensures !Truthy(debug) ==> Flags("serve", debug).sourcemap && !Flags("build", debug).sourcemap
    ensures Truthy(debug) ==> Flags("serve", debug).sourcemap && Flags("build", debug).sourcemap
    ensures !Flags("build", Some("")).sourcemap && !Flags("build", None).sourcemap
    ensures Flags("build", Some("1")).sourcemap
    ensures var f := Flags("preview", debug); !f.isServe && !f.isBuild && f.sourcemap == Truthy(debug)
  {
  }

  /** `Object.keys` of the dependencies object: its property names, in order. */
  function Keys(deps: seq<Dependency>): (names: seq<string>)
    ensures |names| == |deps|
    ensures forall i :: 0 <= i < |deps| ==> names[i] == deps[i].name
  {
    if deps == [] then [] else [deps[0].name] + Keys(deps[1..])
  }

  /**
   * `Object.keys('dependencies' in pkg ? pkg.dependencies : {})`: every
   * declared dependency name in manifest order; none when the field is absent.
   */
  function Externals(dependencies: Option<seq<Dependency>>): (ext: seq<string>)
    ensures dependencies.None? ==> ext == []
    ensures dependencies.Some? ==> |ext| == |dependencies.value|
    ensures dependencies.Some? ==>
      forall i :: 0 <= i < |ext| ==> ext[i] == dependencies.value[i].name
  {
    match dependencies
    case None => []
    case Some(deps) => Keys(deps)
  }

  /** Distinct property names give a list of externals without repetition. */
  lemma {:induction false} ExternalsDistinct(deps: seq<Dependency>)
    requires forall i, j :: 0 <= i < j < |deps| ==> deps[i].name != deps[j].name
    ensures forall i, j :: 0 <= i < j < |Externals(Some(deps))| ==>
      Externals(Some(deps))[i] != Externals(Some(deps))[j]
  {
  }

  /** `build.sourcemap`: a boolean, the string 'inline', or left undefined. */
  datatype SourceMap = Flag(enabled: bool) | Inline | Unset

  /** The Electron targets' `vite.build` block. */
  datatype BuildOptions = BuildOptions(
    sourcemap: SourceMap,
    minify: bool,
    outDir: string,
    external: seq<string>)

  /** What the main target's `onstart` hook does when Electron is ready to start. */
  datatype StartAction = Startup | Log(message: string)

  datatype MainOptions = MainOptions(entry: string, onstart: StartAction, build: BuildOptions)

  datatype PreloadOptions = PreloadOptions(input: string, build: BuildOptions)

  /** The line logged instead of starting the app, read by the debugger's launch script. */
  const StartupMessage: string := "[startup] Electron App"

  /**
   * `onstart`: under a debugger (VSCODE_DEBUG truthy) the debugger launches
   * Electron itself, so the hook only logs; otherwise it starts the app.
   */
  function OnStart(debug: Option<string>): (a: StartAction)
    ensures a == Startup <==> !Truthy(debug)
    ensures a != Startup ==> a == Log(StartupMessage)
  {
    if Truthy(debug) then Log(StartupMessage) else Startup
  }

  /** The main-process target. */
  function MainTarget(flags: RunFlags, debug: Option<string>, external: seq<string>): (m: MainOptions)
    ensures m.entry == "electron/main/index.ts"
    ensures m.onstart == OnStart(debug)
    ensures m.build.sourcemap.Flag? && (m.build.sourcemap.enabled <==> flags.sourcemap)
    ensures m.build.minify == flags.isBuild
    ensures m.build.outDir == "dist-electron/main"
    ensures m.build.external == external
  {
    MainOptions(
      "electron/main/index.ts",
      OnStart(debug),
      BuildOptions(Flag(flags.sourcemap), flags.isBuild, "dist-electron/main", external))
  }

  /** The preload target: its source map is inline or absent, never a separate file. */
  function PreloadTarget(flags: RunFlags, external: seq<string>): (p: PreloadOptions)
    ensures p.input == "electron/preload/index.ts"
    ensures p.build.sourcemap == Inline <==> flags.sourcemap
    ensures p.build.sourcemap == Unset <==> !flags.sourcemap
    ensures p.build.minify == flags.isBuild
    ensures p.build.outDir == "dist-electron/preload"
    ensures p.build.external == external
  {
    PreloadOptions(
      "electron/preload/index.ts",
      BuildOptions(if flags.sourcemap then Inline else Unset, flags.isBuild, "dist-electron/preload", external))
  }

  /** The plugin pipeline's entries with the configuration this file gives them. */
  datatype Plugin =
    | React
    | Electron(main: MainOptions, preload: PreloadOptions, rendererPolyfill: bool)
    | Checker(typescript: bool)
    | Icons(compiler: string, jsx: string, collection: string, transform: string -> string)
    | Pages(dir: string, baseRoute: string, exclude: seq<string>, importMode: string)
    | Unocss
    | AutoImport(imports: seq<string>, dts: string, componentPrefix: string)
    | Eslint
    | Analyze
    | NodePolyfills

  /** The package each plugin comes from: its entry in the import list below. */
  function Name(p: Plugin): (r: string)
    ensures exists i :: 0 <= i < |Pipeline| && r == Pipeline[i]
  {
    match p
    case React => Pipeline[0]
    case Electron(_, _, _) => Pipeline[1]
    case Checker(_) => Pipeline[2]
    case Icons(_, _, _, _) => Pipeline[3]
    case Pages(_, _, _, _) => Pipeline[4]
    case Unocss => Pipeline[5]
    case AutoImport(_, _, _) => Pipeline[6]
    case Eslint => Pipeline[7]
    case Analyze => Pipeline[8]
    case NodePolyfills => Pipeline[9]
  }

  function Names(plugins: seq<Plugin>): (names: seq<string>)
    ensures |names| == |plugins|
    ensures forall i :: 0 <= i < |plugins| ==> names[i] == Name(plugins[i])
  {
    if plugins == [] then [] else [Name(plugins[0])] + Names(plugins[1..])
  }

  /** The fixed order in which the plugins run. */
  const Pipeline: seq<string> := [
    "@vitejs/plugin-react",
    "vite-plugin-electron/simple",
    "vite-plugin-checker",
    "unplugin-icons/vite",
    "vite-plugin-pages",
    "unocss/vite",
    "unplugin-auto-import/vite",
    "vite-plugin-eslint",
    "rollup-plugin-visualizer",
    "vite-plugin-node-stdlib-browser"
  ]

  /** `server`: `VSCODE_DEBUG && {host, port}`, so an unset or empty variable passes through. */
  datatype ServerSetting = Undefined | EmptyString | Endpoint(host: string, port: nat)

  /** The dev-server binding the debugger attaches to. */
  function Server(debug: Option<string>): (s: ServerSetting)
    ensures s.Endpoint? <==> Truthy(debug)
    ensures s.Endpoint? ==> s.host == "127.0.0.1" && s.port == 7777
    ensures debug.None? ==> s == Undefined
    ensures debug == Some("") ==> s == EmptyString
  {
    match debug
    case None => Undefined
    case Some(v) => if v == "" then EmptyString else Endpoint("127.0.0.1", 7777)
  }

  /** The object the callback returns. */
  datatype Config = Config(
    base: Option<string>,
    plugins: seq<Plugin>,
    manualChunks: seq<Chunk>,
    server: ServerSetting)

  /** The ten plugins, each kind at its fixed position. */
  predicate InPipelineOrder(ps: seq<Plugin>) {
    && |ps| == 10
    && ps[0].React? && ps[1].Electron? && ps[2].Checker? && ps[3].Icons? && ps[4].Pages?
    && ps[5].Unocss? && ps[6].AutoImport? && ps[7].Eslint? && ps[8].Analyze? && ps[9].NodePolyfills?
  }

  /** Plugins in that order come from the packages in the pipeline's order. */
  lemma {:induction false} OrderedNames(ps: seq<Plugin>)
    requires InPipelineOrder(ps)
    ensures Names(ps) == Pipeline
  {
    forall i | 0 <= i < 10
      ensures Names(ps)[i] == Pipeline[i]
    {
      assert Names(ps)[i] == Name(ps[i]);
    }
  }

  /** The pipeline positions that carry the Electron targets, the icons and the pages routes. */
  predicate Shaped(c: Config) {
    InPipelineOrder(c.plugins)
  }

  function Main(c: Config): MainOptions
    requires Shaped(c)
  {
    c.plugins[1].main
  }

  function Preload(c: Config): PreloadOptions
    requires Shaped(c)
  {
    c.plugins[1].preload
  }

  function BaseRoute(c: Config): string
    requires Shaped(c)
  {
    c.plugins[4].baseRoute
  }

  /**
   * The `plugins` array, in order, given the two Electron targets and the
   * pages plugin's base route.
   */
  function Plugins(main: MainOptions, preload: PreloadOptions, baseRoute: string): (ps: seq<Plugin>)
    ensures InPipelineOrder(ps)
    ensures ps[1].Electron? && ps[1].main == main && ps[1].preload == preload
    ensures ps[3].Icons? && forall svg :: ps[3].transform(svg) == SvgIcons.FillCurrentColor(svg)
    ensures ps[4].Pages? && ps[4].baseRoute == baseRoute
  {
    var ps := [
      React,
      Electron(main, preload, true),
      Checker(true),
      Icons("jsx", "react", "fisand-icon", SvgIcons.FillCurrentColor),
      Pages("src/pages", baseRoute, ["**/[A-Z]*.tsx"], "sync"),
      Unocss,
      AutoImport(["react"], "./src/auto-imports.d.ts", "Icon"),
      Eslint,
      Analyze,
      NodePolyfills ];
    ps
  }

  /** The whole configuration, as the callback builds it. */
  function Resolve(inv: Invocation): (c: Config)
    ensures Shaped(c)
    ensures var sourcemap := inv.command == "serve" || Truthy(inv.debug);
      && Main(c).build.sourcemap == Flag(sourcemap)
      && Preload(c).build.sourcemap == (if sourcemap then Inline else Unset)
    ensures Main(c).build.minify == Preload(c).build.minify == (inv.command == "build")
    ensures Main(c).build.external == Preload(c).build.external == Externals(inv.dependencies)
    ensures Main(c).build.outDir == "dist-electron/main" && Preload(c).build.outDir == "dist-electron/preload"
    ensures Main(c).entry == "electron/main/index.ts" && Preload(c).input == "electron/preload/index.ts"
    ensures Main(c).onstart == OnStart(inv.debug)
    ensures Main(c).onstart == Startup <==> !Truthy(inv.debug)
    ensures c.server == Server(inv.debug)
    ensures c.server.Endpoint? <==> Truthy(inv.debug)
    ensures c.server.Endpoint? ==> c.server == Endpoint("127.0.0.1", 7777)
    ensures c.base == inv.base
    ensures BaseRoute(c) == if Truthy(inv.base) then inv.base.value else ""
    ensures c.manualChunks == ManualChunks()
    ensures forall svg :: c.plugins[3].transform(svg) == SvgIcons.FillCurrentColor(svg)
  {
    var flags := Flags(inv.command, inv.debug);
    var external := Externals(inv.dependencies);
    var main := MainTarget(flags, inv.debug, external);
    var preload := PreloadTarget(flags, external);
    Config(inv.base, Plugins(main, preload, OrEmpty(inv.base)), ManualChunks(), Server(inv.debug))
  }

  /** How a target's source map is emitted, in the build's own terms. */
  datatype MapMode = NoMap | SeparateFile | InlineMap

  /** Vite emits no map for `false` or an undefined setting. */
  function Mode(s: SourceMap): (m: MapMode)
    ensures m == NoMap <==> s == Flag(false) || s == Unset
    ensures m == SeparateFile <==> s == Flag(true)
    ensures m == InlineMap <==> s == Inline
  {
    match s
    case Flag(on) => if on then SeparateFile else NoMap
    case Inline => InlineMap
    case Unset => NoMap
  }

  /**
   * Both Electron targets get a source map exactly when serving or under a
   * debugger: the main target as a separate file, the preload target inline.
   */
  lemma SourceMapModes(inv: Invocation)
    ensures var c := Resolve(inv);
      && (Mode(Main(c).build.sourcemap) == SeparateFile <==> Flags(inv.command, inv.debug).sourcemap)
      && (Mode(Preload(c).build.sourcemap) == InlineMap <==> Flags(inv.command, inv.debug).sourcemap)
      && Mode(Main(c).build.sourcemap) != InlineMap
      && Mode(Preload(c).build.sourcemap) != SeparateFile
  {
  }

  /** The pipeline's package names are the same for every invocation. */
  lemma PipelineFixed(a: Invocation, b: Invocation)
    ensures Names(Resolve(a).plugins) == Names(Resolve(b).plugins) == Pipeline
  {
    OrderedNames(Resolve(a).plugins);
    OrderedNames(Resolve(b).plugins);
  }

  /** No package appears twice in the pipeline. */
  lemma PipelineDistinct()
    ensures forall i, j :: 0 <= i < j < |Pipeline| ==> Pipeline[i] != Pipeline[j]
  {
    forall i, j | 0 <= i < j < |Pipeline|
      ensures Pipeline[i] != Pipeline[j]
    {
      assert |Pipeline[i]| != |Pipeline[j]| || Pipeline[i][0] != Pipeline[j][0];
    }
  }

  /** Serving without a debugger: maps on, preload inline, the app started, no binding. */
  lemma ServeWithoutDebugger(base: Option<string>, deps: Option<seq<Dependency>>)
    ensures var c := Resolve(Invocation("serve", None, base, deps));
      && Main(c).build.sourcemap == Flag(true)
      && Preload(c).build.sourcemap == Inline
      && !Main(c).build.minify && !Preload(c).build.minify
      && Main(c).onstart == Startup
      && c.server == Undefined
  {
  }

  /** Building under a debugger: maps on, both targets minified, the binding present. */
  lemma BuildUnderDebugger(debug: string, base: Option<string>, deps: Option<seq<Dependency>>)
    requires debug != ""
    ensures var c := Resolve(Invocation("build", Some(debug), base, deps));
      && Main(c).build.sourcemap == Flag(true)
      && Preload(c).build.sourcemap == Inline
      && Main(c).build.minify && Preload(c).build.minify
      && Main(c).onstart == Log(StartupMessage)
      && c.server == Endpoint("127.0.0.1", 7777)
  {
  }

  /** A plain build of a manifest without dependencies: nothing external, no maps, no binding. */
  lemma PlainBuildNoDependencies(base: Option<string>, deps: Option<seq<Dependency>>)
    requires deps == None || deps == Some([])
    ensures var c := Resolve(Invocation("build", None, base, deps));
      && Main(c).build.external == [] && Preload(c).build.external == []
      && Main(c).build.sourcemap == Flag(false)
      && Preload(c).build.sourcemap == Unset
      && Main(c).build.minify && Preload(c).build.minify
      && c.server == Undefined
  {
  }
}
