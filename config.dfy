/**
 * What the recipe's configuration steps compute, as functions of the settings,
 * the options and the recipe's fields before the step. `RecipeState` holds the
 * fields the steps assign; `GatherSpec`, `CompilerDefines`, `IncludeDirs`,
 * `SourceSpec` and `PackageInfoSpec` give the fields after each step, and the
 * exception that stopped it, if any. An exception leaves the fields assigned
 * before it in place, as Python does.
 */
module Config {
  import opened Common
  import opened PyFormat
  import opened PosixPath
  import opened Tables
  import opened LibNames
  import opened VersionHeader

  /**
   * An entry of the compiler-define list. Python lists are untyped: the GUI
   * entry is the integer 0 when the GUI is off, a string otherwise.
   */
  datatype Define = Str(text: string) | Int(value: int)

  /**
   * The recipe's fields. `None` is Python's None; `compileParams` is None
   * while it still holds the class default `[]`; `defines` is the contents of
   * the class-level define list.
   */
  datatype RecipeState = RecipeState(
    platform: Option<string>,
    compilerPrefix: Option<string>,
    runtimeLibsLinkage: string,
    unicodeSuffix: string,
    debugSuffix: string,
    libsDir: Option<string>,
    includeDir: Option<string>,
    compilerIncludeDir: Option<string>,
    platformIncludeDir: Option<string>,
    buildDir: Option<string>,
    compileParams: Option<string>,
    defines: seq<Define>,
    version: Option<Version>,
    libNameVersion: Option<string>,
    libNames: seq<string>)

  /** The class defaults, with the shared define list holding `defines`. */
  function InitialState(defines: seq<Define>): RecipeState
  {
    RecipeState(None, None, "dynamic", "", "", None, None, None, None, None, None, defines, None, None, [])
  }

  /** The outcome of a step: the fields after it and the exception it raised, if any. */
  datatype Step = Step(state: RecipeState, error: Option<Error>)

  /** The entries `config_compiler_defines` appends, and the exception it stops with. */
  datatype Appended = Appended(entries: seq<Define>, error: Option<Error>)

  /** "lib/{0}_{1}{2}" in parsed form. */
  const LibsDirTemplate: seq<Piece> := [Lit("lib/"), Field("0"), Lit("_"), Field("1"), Field("2")]

  /**
   * The nmake parameter format, in parsed form: one literal text and one field
   * per parameter, grouped from the right as `Subst` consumes them.
   */
  const CompileParamsTemplate: seq<Piece> :=
    [Lit("RUNTIME_LIBS="), Field("runtime_libs")] + ([Lit(" UNICODE="), Field("unicode")]
    + ([Lit(" SHARED="), Field("shared")] + ([Lit(" MONOLITHIC="), Field("monolithic")]
    + ([Lit(" TARGET_CPU="), Field("target_cpu")] + [Lit(" BUILD="), Field("build")]))))

  /** `str(1 if b else 0)`. */
  function Flag(b: bool): string
  {
    if b then "1" else "0"
  }

  /**
   * The library directory for a compiler prefix, an arch and the `shared`
   * option: "lib/", the prefix, "_", "x64_" for x86_64 only, then "dll" when
   * shared and "lib" when not. `LibsDirFormat` shows it is what the recipe's
   * format gives.
   */
  function LibsDir(prefix: string, arch: string, shared: bool): string
  {
    "lib/" + prefix + "_" + (if arch == "x86_64" then "x64_" else "") + (if shared then "dll" else "lib")
  }

  /** "lib/{0}_{1}{2}" filled with the prefix, "x64" + "_" or "", and "dll" or "lib" is `LibsDir`. */
  lemma LibsDirFormat(prefix: string, arch: string, shared: bool)
    ensures Subst(LibsDirTemplate, map["0" := prefix, "1" := if arch == "x86_64" then "x64" + "_" else "",
                                       "2" := if shared then "dll" else "lib"])
         == Success(LibsDir(prefix, arch, shared))
  {
    var cpu := if arch == "x86_64" then "x64" + "_" else "";
    var kind := if shared then "dll" else "lib";
    LibsDirFilled(prefix, cpu, kind);
    assert cpu == if arch == "x86_64" then "x64_" else "";
  }

  lemma LibsDirFilled(a: string, b: string, c: string)
    ensures Subst(LibsDirTemplate, map["0" := a, "1" := b, "2" := c]) == Success("lib/" + a + "_" + b + c)
  {
    var args := map["0" := a, "1" := b, "2" := c];
    SubstCons(Field("2"), [], args);
    SubstCons(Field("1"), [Field("2")], args);
    SubstCons(Lit("_"), [Field("1"), Field("2")], args);
    SubstCons(Field("0"), [Lit("_"), Field("1"), Field("2")], args);
    SubstCons(Lit("lib/"), [Field("0"), Lit("_"), Field("1"), Field("2")], args);
    assert c + [] == c;
    assert "lib/" + (a + ("_" + (b + c))) == "lib/" + a + "_" + b + c;
  }

  /**
   * The nmake parameters: the runtime linkage, each of the unicode, shared
   * and monolithic options as 1 when set and 0 when not, the target CPU x64
   * for x86_64 and x86 otherwise, and the build name, in that order.
   * `CompileParamsFormat` shows it is what the recipe's format gives.
   */
  function CompileParams(linkage: string, options: Options, arch: string, build: string): string
  {
    "RUNTIME_LIBS=" + linkage + " UNICODE=" + Flag(options.unicode) + " SHARED=" + Flag(options.shared)
    + " MONOLITHIC=" + Flag(options.monolithic)
    + " TARGET_CPU=" + (if arch == "x86_64" then "x64" else "x86") + " BUILD=" + build
  }

  /** The parameter format filled with the linkage, the three flags, the target CPU and the build name is `CompileParams`. */
  lemma CompileParamsFormat(linkage: string, options: Options, arch: string, build: string)
    ensures Subst(CompileParamsTemplate,
                  map["runtime_libs" := linkage, "unicode" := Flag(options.unicode), "shared" := Flag(options.shared),
                      "monolithic" := Flag(options.monolithic), "target_cpu" := if arch == "x86_64" then "x64" else "x86",
                      "build" := build])
         == Success(CompileParams(linkage, options, arch, build))
  {
    CompileParamsFilled(linkage, Flag(options.unicode), Flag(options.shared), Flag(options.monolithic),
                        if arch == "x86_64" then "x64" else "x86", build);
  }

  lemma CompileParamsFilled(a: string, b: string, c: string, d: string, e: string, f: string)
    ensures Subst(CompileParamsTemplate, map["runtime_libs" := a, "unicode" := b, "shared" := c,
                                             "monolithic" := d, "target_cpu" := e, "build" := f])
         == Success("RUNTIME_LIBS=" + a + " UNICODE=" + b + " SHARED=" + c + " MONOLITHIC=" + d
                    + " TARGET_CPU=" + e + " BUILD=" + f)
  {
    var args := map["runtime_libs" := a, "unicode" := b, "shared" := c, "monolithic" := d, "target_cpu" := e, "build" := f];
    var t6 := [Lit(" BUILD="), Field("build")];
    var t5 := [Lit(" TARGET_CPU="), Field("target_cpu")] + t6;
    var t4 := [Lit(" MONOLITHIC="), Field("monolithic")] + t5;
    var t3 := [Lit(" SHARED="), Field("shared")] + t4;
    var t2 := [Lit(" UNICODE="), Field("unicode")] + t3;
    var t1 := [Lit("RUNTIME_LIBS="), Field("runtime_libs")] + t2;
    var s6 := " BUILD=" + f;
    var s5 := " TARGET_CPU=" + e + s6;
    var s4 := " MONOLITHIC=" + d + s5;
    var s3 := " SHARED=" + c + s4;
    var s2 := " UNICODE=" + b + s3;
    var s1 := "RUNTIME_LIBS=" + a + s2;
    assert args["build"] == f && args["target_cpu"] == e && args["monolithic"] == d;
    assert args["shared"] == c && args["unicode"] == b && args["runtime_libs"] == a;
    assert t6 == t6 + [] && f + [] == f && s6 + [] == s6;
    SubstPairThen(" BUILD=", "build", [], args, []);
    SubstPairThen(" TARGET_CPU=", "target_cpu", t6, args, s6);
    SubstPairThen(" MONOLITHIC=", "monolithic", t5, args, s5);
    SubstPairThen(" SHARED=", "shared", t4, args, s4);
    SubstPairThen(" UNICODE=", "unicode", t3, args, s3);
    SubstPairThen("RUNTIME_LIBS=", "runtime_libs", t2, args, s2);
    assert CompileParamsTemplate == t1;
    var q2 := "RUNTIME_LIBS=" + a + " UNICODE=" + b;
    var q3 := q2 + " SHARED=" + c;
    var q4 := q3 + " MONOLITHIC=" + d;
    var q5 := q4 + " TARGET_CPU=" + e;
    var q1 := "RUNTIME_LIBS=" + a;
    Assoc(q1, " UNICODE=" + b, s3);
    Assoc(q1, " UNICODE=", b);
    Assoc(q2, " SHARED=" + c, s4);
    Assoc(q2, " SHARED=", c);
    Assoc(q3, " MONOLITHIC=" + d, s5);
    Assoc(q3, " MONOLITHIC=", d);
    Assoc(q4, " TARGET_CPU=" + e, s6);
    Assoc(q4, " TARGET_CPU=", e);
    Assoc(q5, " BUILD=" + f, "");
    Assoc(q5, " BUILD=", f);
    assert q5 + " BUILD=" + f + "" == q5 + " BUILD=" + f;
  }

  /** A literal text and a field in front of a template that fills to `x`. */
  lemma SubstPairThen(l: string, n: string, t: seq<Piece>, args: map<string, string>, x: string)
    requires n in args && Subst(t, args) == Success(x)
    ensures Subst([Lit(l), Field(n)] + t, args) == Success(l + args[n] + x)
  {
    assert [Lit(l), Field(n)] + t == [Lit(l)] + ([Field(n)] + t);
    SubstCons(Lit(l), [Field(n)] + t, args);
    SubstCons(Field(n), t, args);
    assert l + (args[n] + x) == l + args[n] + x;
  }

  /**
   * The runtime linkage: unchanged when no compiler runtime is set, otherwise
   * the compiler's runtime table entry for it.
   */
  function RuntimeLinkage(settings: Settings, current: string): Result<string>
  {
    match settings.runtime
    case None => Success(current)
    case Some(runtime) =>
      match Lookup(CompilerRuntimeMap, settings.compiler)
      case Failure(e) => Failure(e)
      case Success(runtimeMap) => Lookup(runtimeMap, runtime)
  }

  /** `config_compiler_defines`. */
  function CompilerDefines(settings: Settings, options: Options): Appended
  {
    var head := (if options.wxdebug then [Str("__WXDEBUG__")] else [])
              + [if options.useGui then Str("wxUSE_GUI=1") else Int(0)]
              + (if options.shared && settings.os == "Windows" then [Str("WXUSINGDLL")] else []);
    match Lookup(CompilerDefinesForPlatformMap, settings.os)
    case Failure(e) => Appended(head, Some(e))
    case Success(forPlatform) =>
      match Lookup(CompilerDefinesForCompilerMap, settings.compiler)
      case Failure(e) => Appended(head + Strings(forPlatform), Some(e))
      case Success(forCompiler) => Appended(head + Strings(forPlatform) + Strings(forCompiler), None)
  }

  /** String entries of the define list. */
  function Strings(ss: seq<string>): (ds: seq<Define>)
    ensures |ds| == |ss| && forall i :: 0 <= i < |ss| ==> ds[i] == Str(ss[i])
  {
    if ss == [] then [] else [Str(ss[0])] + Strings(ss[1..])
  }

  /** `config_include_dirs`. */
  function IncludeDirs(settings: Settings, st: RecipeState): Step
  {
    var st1 := st.(includeDir := Some("include"));
    match Lookup(CompilerIncludeDirMap, settings.compiler)
    case Failure(e) => Step(st1, Some(e))
    case Success(dir) =>
      var st2 := st1.(compilerIncludeDir := Some(Join("include", dir)));
      match st2.platform
      case None => Step(st2, Some(TypeError))
      case Some(platform) => Step(st2.(platformIncludeDir := Some(Join("lib", platform + st2.unicodeSuffix))), None)
  }

  /**
   * `gather_wx_config`, up to the printing it ends with: the three lookups
   * that fix the platform tag, the compiler prefix and the runtime linkage,
   * then `GatherPaths`.
   */
  function GatherSpec(settings: Settings, options: Options, st: RecipeState): Step
  {
    match Lookup(PlatformMap, settings.os)
    case Failure(e) => Step(st, Some(e))
    case Success(platform) =>
      var st1 := st.(platform := Some(platform));
      match Lookup(CompilerPrefixMap, settings.compiler)
      case Failure(e) => Step(st1, Some(e))
      case Success(prefix) =>
        WithLinkage(settings, options, st1.(compilerPrefix := Some(prefix)))
  }

  /** The runtime linkage, once the platform tag and the compiler prefix are set, then `GatherPaths`. */
  function WithLinkage(settings: Settings, options: Options, st: RecipeState): Step
    requires Looked(settings, st)
  {
    match RuntimeLinkage(settings, st.runtimeLibsLinkage)
    case Failure(e) => Step(st, Some(e))
    case Success(linkage) => GatherPaths(settings, options, st.(runtimeLibsLinkage := linkage))
  }

  /** The platform tag and the compiler prefix are those the tables give for the os and the compiler. */
  predicate Looked(settings: Settings, st: RecipeState)
  {
    && settings.os in PlatformMap && settings.compiler in CompilerPrefixMap
    && st.platform == Some(PlatformMap[settings.os]) && st.compilerPrefix == Some(CompilerPrefixMap[settings.compiler])
  }

  /**
   * The rest of `gather_wx_config`, once the platform and the compiler prefix
   * are set: the suffixes and the library directory, the defines, the include
   * directories, then the build directory and the nmake parameters.
   */
  function GatherPaths(settings: Settings, options: Options, st: RecipeState): Step
    requires Looked(settings, st)
  {
    var st3 := WithSuffixes(settings, options, st);
    var defines := CompilerDefines(settings, options);
    // The os and the compiler were found in tables with the same keys.
    assert defines.error.None?;
    var included := IncludeDirs(settings, st3.(defines := st3.defines + defines.entries));
    assert included.error.None?;
    WithBuildParams(settings, options, included.state)
  }

  /** The unicode and debug suffixes and the library directory, the first paths `gather_wx_config` sets. */
  function WithSuffixes(settings: Settings, options: Options, st: RecipeState): RecipeState
    requires st.compilerPrefix.Some?
  {
    st.(unicodeSuffix := if options.unicode then "u" else st.unicodeSuffix,
        debugSuffix := if settings.buildType == "Debug" then "d" else st.debugSuffix,
        libsDir := Some(LibsDir(st.compilerPrefix.value, settings.arch, options.shared)))
  }

  /** The build directory, then the build-type lookup and the nmake parameters, the last steps of `gather_wx_config`. */
  function WithBuildParams(settings: Settings, options: Options, st: RecipeState): Step
    requires st.platform.Some?
  {
    var st4 := st.(buildDir := Some(Join("build", st.platform.value)));
    match Lookup(BuildTypeMap, settings.buildType)
    case Failure(e) => Step(st4, Some(e))
    case Success(build) =>
      Step(st4.(compileParams := Some(CompileParams(st.runtimeLibsLinkage, options, settings.arch, build))), None)
  }

  /** `str(self.wx_compile_params)`: the class default is the empty list. */
  function ParamsText(compileParams: Option<string>): string
  {
    match compileParams
    case None => "[]"
    case Some(p) => p
  }

  /** The command line `build` runs: the compiler's format filled with the parameters. */
  function BuildCommand(settings: Settings, st: RecipeState): Result<string>
  {
    match Lookup(BuildCommandFormat, settings.compiler)
    case Failure(e) => Failure(e)
    case Success(format) => Subst(format, map["0" := ParamsText(st.compileParams)])
  }

  /**
   * The part of `source` after the clone: read the version from the text of
   * the header, then expand the library names with the fields as they are.
   */
  function SourceSpec(formats: seq<seq<Piece>>, content: string, st: RecipeState): Step
  {
    match ParseVersion(content)
    case Failure(e) => Step(st, Some(e))
    case Success(v) => WithVersion(formats, v, st)
  }

  /** The version read, the version inside library names, then the expanded library names. */
  function WithVersion(formats: seq<seq<Piece>>, v: Version, st: RecipeState): Step
  {
    var libNameVersion := LibNameVersion(v);
    var st1 := st.(version := Some(v), libNameVersion := Some(libNameVersion));
    match ExpandLibNameVars(formats, PyStr(st.platform), libNameVersion, st.unicodeSuffix, st.debugSuffix)
    case Failure(e) => Step(st1, Some(e))
    case Success(names) => Step(st1.(libNames := names), None)
  }

  /** What `package_info` hands to Conan. */
  datatype CppInfo = CppInfo(includeDirs: seq<Option<string>>, libs: seq<string>, defines: seq<Define>)

  /** The fields after `package_info` and what it hands over, or the exception of its gather. */
  datatype Packaged = Packaged(state: RecipeState, info: Result<CppInfo>)

  /** `package_info`: gather, then the include directories, library names and defines. */
  function PackageInfoSpec(settings: Settings, options: Options, st: RecipeState): Packaged
  {
    var gathered := GatherSpec(settings, options, st);
    match gathered.error
    case Some(e) => Packaged(gathered.state, Failure(e))
    case None =>
      var g := gathered.state;
      Packaged(g, Success(CppInfo([g.includeDir, g.platformIncludeDir, g.compilerIncludeDir], g.libNames, g.defines)))
  }

  /** Every lookup of `gather_wx_config` finds its key. */
  predicate Supported(settings: Settings)
  {
    && settings.os in PlatformMap
    && settings.compiler in CompilerPrefixMap
    && (settings.runtime.Some? ==>
          settings.compiler in CompilerRuntimeMap && settings.runtime.value in CompilerRuntimeMap[settings.compiler])
    && settings.buildType in BuildTypeMap
  }

  /** The settings the tables cover: Windows, Visual Studio, one of four runtimes or none, Debug or Release. */
  lemma SupportedSettings(settings: Settings)
    ensures Supported(settings) <==>
      && settings.os == "Windows"
      && settings.compiler == "Visual Studio"
      && (settings.runtime.None? || settings.runtime.value in {"MDd", "MD", "MTd", "MT"})
      && settings.buildType in {"Debug", "Release"}
  {
  }

  /** The entries `config_compiler_defines` appends on Windows with Visual Studio, in order. */
  function WindowsDefines(options: Options): seq<Define>
  {
    (if options.wxdebug then [Str("__WXDEBUG__")] else [])
    + [if options.useGui then Str("wxUSE_GUI=1") else Int(0)]
    + (if options.shared then [Str("WXUSINGDLL")] else [])
    + [Str("__WXMSW__"), Str("WINVER=0x0500"), Str("_CRT_SECURE_NO_WARNINGS"), Str("UNICODE"), Str("_UNICODE")]
  }

  /**
   * `config_compiler_defines` only ever appends; for a supported os and
   * compiler it appends `WindowsDefines` and succeeds, and otherwise it fails
   * with the KeyError of the first table that misses.
   */
  lemma CompilerDefinesResult(settings: Settings, options: Options)
    ensures var r := CompilerDefines(settings, options);
      && (settings.os == "Windows" && settings.compiler == "Visual Studio" ==>
            r == Appended(WindowsDefines(options), None))
      && (settings.os != "Windows" ==> r.error == Some(KeyError(settings.os)))
      && (settings.os == "Windows" && settings.compiler != "Visual Studio" ==> r.error == Some(KeyError(settings.compiler)))
  {
    if settings.os == "Windows" && settings.compiler == "Visual Studio" {
      var forPlatform := ["__WXMSW__", "WINVER=0x0500"];
      var forCompiler := ["_CRT_SECURE_NO_WARNINGS", "UNICODE", "_UNICODE"];
      assert Strings(forPlatform) == [Str("__WXMSW__"), Str("WINVER=0x0500")];
      assert Strings(forCompiler) == [Str("_CRT_SECURE_NO_WARNINGS"), Str("UNICODE"), Str("_UNICODE")];
    }
  }

  /**
   * What the define entries say: "__WXDEBUG__" exactly when wxdebug is set,
   * "wxUSE_GUI=1" exactly when use_gui is set and the integer 0 exactly when
   * it is not, "WXUSINGDLL" exactly when shared, and the platform and compiler
   * defines always, last and in table order. The debug entry comes first and
   * the GUI entry right after it.
   */
  lemma WindowsDefinesContent(options: Options)
    ensures var ds := WindowsDefines(options);
      && (Str("__WXDEBUG__") in ds <==> options.wxdebug)
      && (Str("wxUSE_GUI=1") in ds <==> options.useGui)
      && (Int(0) in ds <==> !options.useGui)
      && (Str("WXUSINGDLL") in ds <==> options.shared)
      && |ds| == 6 + (if options.wxdebug then 1 else 0) + (if options.shared then 1 else 0)
      && (options.wxdebug ==> ds[0] == Str("__WXDEBUG__"))
      && ds[if options.wxdebug then 1 else 0] == (if options.useGui then Str("wxUSE_GUI=1") else Int(0))
      && ds[|ds| - 5..] == [Str("__WXMSW__"), Str("WINVER=0x0500"), Str("_CRT_SECURE_NO_WARNINGS"), Str("UNICODE"), Str("_UNICODE")]
  {
    var ds := WindowsDefines(options);
    var fixed := [Str("__WXMSW__"), Str("WINVER=0x0500"), Str("_CRT_SECURE_NO_WARNINGS"), Str("UNICODE"), Str("_UNICODE")];
    var gui := if options.useGui then Str("wxUSE_GUI=1") else Int(0);
    FixedDefines();
    var tail := (if options.shared then [Str("WXUSINGDLL")] else []) + fixed;
    assert Str("__WXDEBUG__") !in tail && Str("wxUSE_GUI=1") !in tail && Int(0) !in tail;
    assert Str("WXUSINGDLL") in tail <==> options.shared;
    assert tail[|tail| - 5..] == fixed;
    if options.wxdebug {
      assert ds == [Str("__WXDEBUG__")] + ([gui] + tail);
    } else {
      assert ds == [gui] + tail;
    }
  }

  /** None of the platform and compiler defines is one of the optional entries. */
  lemma FixedDefines()
    ensures var fixed := [Str("__WXMSW__"), Str("WINVER=0x0500"), Str("_CRT_SECURE_NO_WARNINGS"), Str("UNICODE"), Str("_UNICODE")];
      Str("__WXDEBUG__") !in fixed && Str("wxUSE_GUI=1") !in fixed && Int(0) !in fixed && Str("WXUSINGDLL") !in fixed
  {
  }

  /**
   * `gather_wx_config` stops at the first lookup that misses, with a KeyError
   * naming the missing key: the os, then the compiler, then the runtime, and
   * last the build type. It succeeds exactly when the settings are supported.
   */
  lemma GatherError(settings: Settings, options: Options, st: RecipeState)
    ensures GatherSpec(settings, options, st).error ==
      if settings.os !in PlatformMap then Some(KeyError(settings.os))
      else if settings.compiler !in CompilerPrefixMap then Some(KeyError(settings.compiler))
      else if settings.runtime.Some? && settings.runtime.value !in CompilerRuntimeMap[settings.compiler]
        then Some(KeyError(settings.runtime.value))
      else if settings.buildType !in BuildTypeMap then Some(KeyError(settings.buildType))
      else None
    ensures GatherSpec(settings, options, st).error.None? <==> Supported(settings)
  {
  }

  /** A gather that fails on the os changes nothing; one that fails on the build type has done everything else. */
  lemma GatherPartial(settings: Settings, options: Options, st: RecipeState)
    ensures settings.os !in PlatformMap ==> GatherSpec(settings, options, st).state == st
    ensures Supported(settings.(buildType := "Debug")) && settings.buildType !in BuildTypeMap ==>
      var r := GatherSpec(settings, options, st).state;
      && r.compileParams == st.compileParams
      && r.buildDir == Some("build/msw")
      && r.defines == st.defines + WindowsDefines(options)
  {
    var debug := settings.(buildType := "Debug");
    if Supported(debug) && settings.buildType !in BuildTypeMap {
      SupportedLookups(debug, options, st.runtimeLibsLinkage);
      assert RuntimeLinkage(settings, st.runtimeLibsLinkage) == RuntimeLinkage(debug, st.runtimeLibsLinkage);
      CompilerDefinesResult(settings, options);
      var unicode := if options.unicode then "u" else st.unicodeSuffix;
      var st3 := st.(platform := Some("msw"), compilerPrefix := Some("vc"),
                     runtimeLibsLinkage := ExpectedLinkage(settings.runtime, st.runtimeLibsLinkage),
                     unicodeSuffix := unicode,
                     libsDir := Some(LibsDir("vc", settings.arch, options.shared)),
                     defines := st.defines + WindowsDefines(options));
      IncludeDirsResult(settings, st3);
      assert Join("build", "msw") == "build/msw";
    }
  }

  /** The runtime linkage after a successful gather: MD and MDd are dynamic, MT and MTd static, none keeps it. */
  function ExpectedLinkage(runtime: Option<string>, current: string): string
  {
    match runtime
    case None => current
    case Some(r) => if r == "MD" || r == "MDd" then "dynamic" else "static"
  }

  /** The lookups of a gather with supported settings. */
  lemma SupportedLookups(settings: Settings, options: Options, current: string)
    requires Supported(settings)
    ensures Lookup(PlatformMap, settings.os) == Success("msw")
    ensures Lookup(CompilerPrefixMap, settings.compiler) == Success("vc")
    ensures RuntimeLinkage(settings, current) == Success(ExpectedLinkage(settings.runtime, current))
    ensures Lookup(BuildTypeMap, settings.buildType) == Success(if settings.buildType == "Debug" then "debug" else "release")
    ensures CompilerDefines(settings, options) == Appended(WindowsDefines(options), None)
  {
    SupportedSettings(settings);
    CompilerDefinesResult(settings, options);
  }

  /** `config_include_dirs` once the platform is set, with Visual Studio. */
  lemma IncludeDirsResult(settings: Settings, st: RecipeState)
    requires settings.compiler == "Visual Studio" && st.platform == Some("msw")
    ensures IncludeDirs(settings, st) == Step(st.(includeDir := Some("include"),
                                                  compilerIncludeDir := Some("include/msvc"),
                                                  platformIncludeDir := Some("lib/msw" + st.unicodeSuffix)), None)
  {
    assert Join("lib", "msw" + st.unicodeSuffix) == "lib/msw" + st.unicodeSuffix;
    assert Join("include", "msvc") == "include/msvc";
  }

  /**
   * The fields after a successful gather, written out: the platform tag, the
   * compiler prefix, the runtime linkage, the suffixes, the library
   * directory, the include directories, the build directory, the nmake
   * parameters, and the defines appended; the fields `source` sets are kept.
   */
  lemma GatherResult(settings: Settings, options: Options, st: RecipeState)
    requires Supported(settings)
    ensures var r := GatherSpec(settings, options, st);
      var unicode := if options.unicode then "u" else st.unicodeSuffix;
      var linkage := ExpectedLinkage(settings.runtime, st.runtimeLibsLinkage);
      && r.error == None
      && r.state == st.(
           platform := Some("msw"),
           compilerPrefix := Some("vc"),
           runtimeLibsLinkage := linkage,
           unicodeSuffix := unicode,
           debugSuffix := if settings.buildType == "Debug" then "d" else st.debugSuffix,
           libsDir := Some("lib/vc_" + (if settings.arch == "x86_64" then "x64_" else "")
                           + (if options.shared then "dll" else "lib")),
           includeDir := Some("include"),
           compilerIncludeDir := Some("include/msvc"),
           platformIncludeDir := Some("lib/msw" + unicode),
           buildDir := Some("build/msw"),
           compileParams := Some(CompileParams(linkage, options, settings.arch,
                                               if settings.buildType == "Debug" then "debug" else "release")),
           defines := st.defines + WindowsDefines(options))
  {
    SupportedLookups(settings, options, st.runtimeLibsLinkage);
    var unicode := if options.unicode then "u" else st.unicodeSuffix;
    var st3 := st.(platform := Some("msw"), compilerPrefix := Some("vc"),
                   runtimeLibsLinkage := ExpectedLinkage(settings.runtime, st.runtimeLibsLinkage),
                   unicodeSuffix := unicode,
                   debugSuffix := if settings.buildType == "Debug" then "d" else st.debugSuffix,
                   libsDir := Some(LibsDir("vc", settings.arch, options.shared)),
                   defines := st.defines + WindowsDefines(options));
    IncludeDirsResult(settings, st3);
    assert Join("build", "msw") == "build/msw";
    assert "lib/" + "vc" + "_" == "lib/vc_";
  }

  /** A gather with supported settings raises nothing and appends the Windows defines to the list, once. */
  lemma GatherDefines(settings: Settings, options: Options, st: RecipeState)
    requires Supported(settings)
    ensures GatherSpec(settings, options, st).error == None
    ensures GatherSpec(settings, options, st).state.defines == st.defines + WindowsDefines(options)
  {
    GatherResult(settings, options, st);
  }

  /**
   * On a fresh recipe a successful gather makes the unicode suffix "u" exactly
   * when the unicode option is set and "" otherwise, and the debug suffix "d"
   * exactly when the build type is Debug and "" otherwise.
   */
  lemma GatherSuffixes(settings: Settings, options: Options, defines: seq<Define>)
    requires Supported(settings)
    ensures var r := GatherSpec(settings, options, InitialState(defines)).state;
      && (r.unicodeSuffix == "u" <==> options.unicode)
      && (r.unicodeSuffix == "" <==> !options.unicode)
      && (r.debugSuffix == "d" <==> settings.buildType == "Debug")
      && (r.debugSuffix == "" <==> settings.buildType != "Debug")
  {
    GatherResult(settings, options, InitialState(defines));
  }

  /**
   * On a fresh recipe the runtime linkage is "dynamic" when no runtime is set
   * or it is MD or MDd, and "static" when it is MT or MTd.
   */
  lemma GatherLinkage(settings: Settings, options: Options, defines: seq<Define>)
    requires Supported(settings)
    ensures var r := GatherSpec(settings, options, InitialState(defines)).state;
      && (r.runtimeLibsLinkage == "dynamic" <==>
            settings.runtime == None || settings.runtime == Some("MD") || settings.runtime == Some("MDd"))
      && (r.runtimeLibsLinkage == "static" <==> settings.runtime == Some("MT") || settings.runtime == Some("MTd"))
  {
    SupportedSettings(settings);
    GatherResult(settings, options, InitialState(defines));
  }

  /**
   * Gathering a second time changes no field but the shared define list, to
   * which it appends every entry once more.
   */
  lemma GatherTwice(settings: Settings, options: Options, st: RecipeState)
    requires Supported(settings)
    ensures var once := GatherSpec(settings, options, st).state;
      var twice := GatherSpec(settings, options, once);
      && twice.error == None
      && twice.state == once.(defines := st.defines + WindowsDefines(options) + WindowsDefines(options))
  {
    var once := GatherSpec(settings, options, st).state;
    GatherResult(settings, options, st);
    GatherResult(settings, options, once);
  }

  /** The library directories of the examples: x86_64 shared and x86 static. */
  lemma LibsDirExamples()
    ensures LibsDir("vc", "x86_64", true) == "lib/vc_x64_dll"
    ensures LibsDir("vc", "x86", false) == "lib/vc_lib"
  {
  }

  /**
   * The command line of `build` is "nmake -f makefile.vc " followed by the
   * parameters, "[]" while they still hold the class default; a compiler
   * without a command format is a KeyError.
   */
  lemma BuildCommandResult(settings: Settings, st: RecipeState)
    ensures var r := BuildCommand(settings, st);
      && (r.Success? <==> settings.compiler == "Visual Studio")
      && (r.Success? ==> r.value == "nmake -f makefile.vc " + ParamsText(st.compileParams))
      && (r.Failure? ==> r.error == KeyError(settings.compiler))
      && (st.compileParams.None? && r.Success? ==> r.value == "nmake -f makefile.vc []")
  {
    if settings.compiler == "Visual Studio" {
      var args := map["0" := ParamsText(st.compileParams)];
      SubstCons(Field("0"), [], args);
      SubstCons(Lit("nmake -f makefile.vc "), [Field("0")], args);
      assert ParamsText(st.compileParams) + [] == ParamsText(st.compileParams);
    }
  }

  /**
   * `source` reads the version and names the libraries after the fields as
   * they are; a header it cannot read raises AttributeError and changes nothing.
   */
  lemma SourceResult(content: string, st: RecipeState)
    ensures var r := SourceSpec(WxLibNameFormats(), content, st);
      match ParseVersion(content)
      case Failure(_) => r == Step(st, Some(AttributeError))
      case Success(v) =>
        && r.error == None
        && r.state == st.(version := Some(v), libNameVersion := Some(LibNameVersion(v)),
                          libNames := WxLibNames(PyStr(st.platform), LibNameVersion(v), st.unicodeSuffix, st.debugSuffix))
  {
    ParseVersionMeaning(content);
    if ParseVersion(content).Success? {
      var v := ParseVersion(content).value;
      ExpandWxLibNames(PyStr(st.platform), LibNameVersion(v), st.unicodeSuffix, st.debugSuffix);
    }
  }

  /**
   * `source` on a fresh recipe runs before any gather: the platform is still
   * None and the suffixes empty, so the GUI libraries are named "wxNone...".
   */
  lemma SourceBeforeGather(v: Version, defines: seq<Define>)
    ensures var r := SourceSpec(WxLibNameFormats(), Header(v), InitialState(defines));
      && r.error == None
      && r.state.libNameVersion == Some(LibNameVersion(v))
      && |r.state.libNames| == 23
      && r.state.libNames[0] == "wxbase" + LibNameVersion(v)
      && r.state.libNames[5] == "wxNone" + LibNameVersion(v) + "_core"
  {
    ParseVersionHeader(v);
    var st := InitialState(defines);
    SourceResult(Header(v), st);
    FreshNames(LibNameVersion(v));
  }

  /** Names expanded with platform None and empty suffixes. */
  lemma FreshNames(version: string)
    ensures var names := WxLibNames("None", version, "", "");
      names[0] == "wxbase" + version && names[5] == "wxNone" + version + "_core"
  {
    assert "wxbase" + version + "" + "" == "wxbase" + version;
    assert "wx" + "None" == "wxNone";
  }

  /**
   * `package_info` hands over the include directories in the order include,
   * platform include, compiler include, the library names as `source` left
   * them, and the define list with this gather's entries appended.
   */
  lemma PackageInfoResult(settings: Settings, options: Options, st: RecipeState)
    requires Supported(settings)
    ensures var p := PackageInfoSpec(settings, options, st);
      var unicode := if options.unicode then "u" else st.unicodeSuffix;
      && p.state == GatherSpec(settings, options, st).state
      && p.info == Success(CppInfo([Some("include"), Some("lib/msw" + unicode), Some("include/msvc")],
                                   st.libNames, st.defines + WindowsDefines(options)))
  {
    GatherResult(settings, options, st);
  }

  /** `package_info` with unsupported settings raises the gather's KeyError. */
  lemma PackageInfoUnsupported(settings: Settings, options: Options, st: RecipeState)
    requires !Supported(settings)
    ensures PackageInfoSpec(settings, options, st).info.Failure?
    ensures PackageInfoSpec(settings, options, st).info.error.KeyError?
  {
    GatherError(settings, options, st);
  }
}
