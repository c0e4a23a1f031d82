/**
 * The recipe object itself. `WxWidgetsRecipe` holds the fields the
 * configuration steps assign, and its methods assign them one by one, as the
 * recipe's methods do; each method is proved to end in the state, and to raise
 * the exception, that the matching function of `Config` gives.
 *
 * `wx_compiler_defines` is a list created once, in the class body, and only
 * ever appended to: every recipe object reads and extends that one list. It is
 * the `DefineList` object a recipe is constructed with, and several recipes
 * may be given the same one.
 */
module Recipe {
  import opened Common
  import opened PyFormat
  import opened PosixPath
  import opened Tables
  import opened LibNames
  import opened VersionHeader
  import opened Config

  /** A Python list of define entries, changed in place. */
  class DefineList {
    var items: seq<Define>

    constructor (items0: seq<Define>)
      ensures items == items0
    {
      items := items0;
    }

    /** `list.append(d)`. */
    method Append(d: Define)
      modifies this
      ensures items == old(items) + [d]
    {
      items := items + [d];
    }

    /** `list.extend(ss)` with a list of strings, one entry per string, in order. */
    method Extend(ss: seq<string>)
      modifies this
      ensures items == old(items) + Strings(ss)
    {
      var i := 0;
      while i < |ss|
        invariant 0 <= i <= |ss|
        invariant items == old(items) + Strings(ss[..i])
      {
        StringsSnoc(ss[..i], ss[i]);
        assert ss[..i + 1] == ss[..i] + [ss[i]];
        items := items + [Str(ss[i])];
        i := i + 1;
      }
      assert ss[..i] == ss;
    }
  }

  /** The entries of a list of strings, one more at the end. */
  lemma StringsSnoc(ss: seq<string>, s: string)
    ensures Strings(ss + [s]) == Strings(ss) + [Str(s)]
  {
    var l, r := Strings(ss + [s]), Strings(ss) + [Str(s)];
    assert |l| == |r|;
    forall i | 0 <= i < |l| ensures l[i] == r[i] {
      if i < |ss| {
        assert (ss + [s])[i] == ss[i];
      }
    }
  }

  class WxWidgetsRecipe {
    const settings: Settings
    const options: Options
    /** The class-level `wx_compiler_defines`, shared with every other recipe given the same list. */
    const compilerDefines: DefineList
    /** `wx_lib_name_formats`. */
    const libNameFormats: seq<seq<Piece>>

    var platform: Option<string>
    var compilerPrefix: Option<string>
    var runtimeLibsLinkage: string
    var unicodeSuffix: string
    var debugSuffix: string
    var libsDir: Option<string>
    var includeDir: Option<string>
    var compilerIncludeDir: Option<string>
    var platformIncludeDir: Option<string>
    var buildDir: Option<string>
    var compileParams: Option<string>
    var version: Option<Version>
    var libNameVersion: Option<string>
    var libNames: seq<string>

    /** The recipe's fields, the shared define list included. */
    function State(): RecipeState
      reads this, compilerDefines
    {
      RecipeState(platform, compilerPrefix, runtimeLibsLinkage, unicodeSuffix, debugSuffix, libsDir,
                  includeDir, compilerIncludeDir, platformIncludeDir, buildDir, compileParams,
                  compilerDefines.items, version, libNameVersion, libNames)
    }

    /** A recipe with the class defaults, sharing `defines` as its define list. */
    constructor (settings: Settings, options: Options, defines: DefineList)
      ensures this.settings == settings && this.options == options && compilerDefines == defines
      ensures libNameFormats == WxLibNameFormats()
      ensures State() == InitialState(defines.items)
    {
      this.settings := settings;
      this.options := options;
      compilerDefines := defines;
      libNameFormats := WxLibNameFormats();
      platform := None;
      compilerPrefix := None;
      runtimeLibsLinkage := "dynamic";
      unicodeSuffix := "";
      debugSuffix := "";
      libsDir := None;
      includeDir := None;
      compilerIncludeDir := None;
      platformIncludeDir := None;
      buildDir := None;
      compileParams := None;
      version := None;
      libNameVersion := None;
      libNames := [];
    }

    /** `config_compiler_defines`: appends to the shared list, and to nothing else. */
    method ConfigCompilerDefines() returns (err: Option<Error>)
      modifies compilerDefines
      ensures var a := CompilerDefines(settings, options);
        compilerDefines.items == old(compilerDefines.items) + a.entries && err == a.error
    {
      ghost var start := compilerDefines.items;
      ghost var debugEntry: seq<Define> := if options.wxdebug then [Str("__WXDEBUG__")] else [];
      ghost var guiEntry := if options.useGui then Str("wxUSE_GUI=1") else Int(0);
      ghost var dllEntry: seq<Define> := if options.shared && settings.os == "Windows" then [Str("WXUSINGDLL")] else [];
      if options.wxdebug {
        compilerDefines.Append(Str("__WXDEBUG__"));
      }
      assert compilerDefines.items == start + debugEntry;
      compilerDefines.Append(if options.useGui then Str("wxUSE_GUI=1") else Int(0));
      Assoc(start, debugEntry, [guiEntry]);
      if options.shared {
        if settings.os == "Windows" {
          compilerDefines.Append(Str("WXUSINGDLL"));
        }
      }
      ghost var head := debugEntry + [guiEntry] + dllEntry;
      Assoc(start, debugEntry + [guiEntry], dllEntry);
      assert compilerDefines.items == start + head;
      var forPlatform := Lookup(CompilerDefinesForPlatformMap, settings.os);
      if forPlatform.Failure? {
        return Some(forPlatform.error);
      }
      compilerDefines.Extend(forPlatform.value);
      Assoc(start, head, Strings(forPlatform.value));
      var forCompiler := Lookup(CompilerDefinesForCompilerMap, settings.compiler);
      if forCompiler.Failure? {
        return Some(forCompiler.error);
      }
      compilerDefines.Extend(forCompiler.value);
      Assoc(start, head + Strings(forPlatform.value), Strings(forCompiler.value));
      return None;
    }

    /** `config_include_dirs`. */
    method ConfigIncludeDirs() returns (err: Option<Error>)
      modifies this
      ensures var s := IncludeDirs(settings, old(State()));
        State() == s.state && err == s.error
    {
      includeDir := Some("include");
      var dir := Lookup(CompilerIncludeDirMap, settings.compiler);
      if dir.Failure? {
        return Some(dir.error);
      }
      compilerIncludeDir := Some(Join(includeDir.value, dir.value));
      if platform.None? {
        // `None + str` raises TypeError.
        return Some(TypeError);
      }
      platformIncludeDir := Some(Join("lib", platform.value + unicodeSuffix));
      return None;
    }

    /**
     * `gather_wx_config`, without its diagnostic printing: the lookups of the
     * platform tag, the compiler prefix and the runtime linkage, then
     * `GatherPathsStep`.
     */
    method GatherWxConfig() returns (err: Option<Error>)
      modifies this, compilerDefines
      ensures var g := GatherSpec(settings, options, old(State()));
        State() == g.state && err == g.error
    {
      var p := Lookup(PlatformMap, settings.os);
      if p.Failure? {
        return Some(p.error);
      }
      platform := Some(p.value);
      var prefix := Lookup(CompilerPrefixMap, settings.compiler);
      if prefix.Failure? {
        return Some(prefix.error);
      }
      compilerPrefix := Some(prefix.value);
      err := AssignLinkage();
    }

    /** The runtime linkage, when a compiler runtime is set, then `GatherPathsStep`. */
    method AssignLinkage() returns (err: Option<Error>)
      requires Looked(settings, State())
      modifies this, compilerDefines
      ensures var g := WithLinkage(settings, options, old(State()));
        State() == g.state && err == g.error
    {
      if settings.runtime.Some? {
        var runtimeMap := Lookup(CompilerRuntimeMap, settings.compiler);
        // The compiler is in the prefix table, which has the same keys.
        assert runtimeMap.Success?;
        var linkage := Lookup(runtimeMap.value, settings.runtime.value);
        if linkage.Failure? {
          return Some(linkage.error);
        }
        runtimeLibsLinkage := linkage.value;
      }
      err := GatherPathsStep();
    }

    /** The rest of `gather_wx_config`, once the platform tag and the compiler prefix are set. */
    method GatherPathsStep() returns (err: Option<Error>)
      requires Looked(settings, State())
      modifies this, compilerDefines
      ensures var g := GatherPaths(settings, options, old(State()));
        State() == g.state && err == g.error
    {
      AssignSuffixes();
      ghost var st3 := State();
      var e := ConfigCompilerDefines();
      // The os and the compiler are in the tables of defines too.
      assert e.None?;
      ghost var defined := st3.(defines := st3.defines + CompilerDefines(settings, options).entries);
      assert State() == defined;
      e := ConfigIncludeDirs();
      assert e.None?;
      err := AssignBuildParams();
    }

    /** The suffixes and the library directory. */
    method AssignSuffixes()
      requires compilerPrefix.Some?
      modifies this
      ensures State() == WithSuffixes(settings, options, old(State()))
    {
      if options.unicode {
        unicodeSuffix := "u";
      }
      if settings.buildType == "Debug" {
        debugSuffix := "d";
      }
      libsDir := Some(LibsDir(compilerPrefix.value, settings.arch, options.shared));
    }

    /** The build directory, then the build-type lookup and the nmake parameters. */
    method AssignBuildParams() returns (err: Option<Error>)
      requires platform.Some?
      modifies this
      ensures var s := WithBuildParams(settings, options, old(State()));
        State() == s.state && err == s.error
    {
      buildDir := Some(Join("build", platform.value));
      var build := Lookup(BuildTypeMap, settings.buildType);
      if build.Failure? {
        return Some(build.error);
      }
      compileParams := Some(CompileParams(runtimeLibsLinkage, options, settings.arch, build.value));
      return None;
    }

    /** `source` after its clone: `content` is the text of include/wx/version.h. */
    method Source(content: string) returns (err: Option<Error>)
      modifies this
      ensures var s := SourceSpec(libNameFormats, content, old(State()));
        State() == s.state && err == s.error
    {
      var v := ParseVersion(content);
      if v.Failure? {
        return Some(v.error);
      }
      err := NameLibraries(v.value);
    }

    /** The rest of `source`: the version fields, then the library names. */
    method NameLibraries(v: Version) returns (err: Option<Error>)
      modifies this
      ensures var s := WithVersion(libNameFormats, v, old(State()));
        State() == s.state && err == s.error
    {
      var nameVersion := LibNameVersion(v);
      version := Some(v);
      libNameVersion := Some(nameVersion);
      var names := ExpandLibNameVars(libNameFormats, PyStr(platform), nameVersion, unicodeSuffix, debugSuffix);
      if names.Failure? {
        return Some(names.error);
      }
      libNames := names.value;
      return None;
    }

    /** `package_info`: gathers, then hands over the include directories, the library names and the defines. */
    method PackageInfo() returns (info: Result<CppInfo>)
      modifies this, compilerDefines
      ensures var p := PackageInfoSpec(settings, options, old(State()));
        State() == p.state && info == p.info
    {
      var e := GatherWxConfig();
      if e.Some? {
        return Failure(e.value);
      }
      return Success(CppInfo([includeDir, platformIncludeDir, compilerIncludeDir], libNames, compilerDefines.items));
    }

    /**
     * The command line `build` runs in the build directory: the compiler's
     * command format filled with the compile parameters.
     */
    function BuildCommandLine(): (r: Result<string>)
      reads this, compilerDefines
      ensures r.Success? <==> settings.compiler == "Visual Studio"
      ensures r.Success? ==> r.value == "nmake -f makefile.vc " + ParamsText(compileParams)
      ensures r.Failure? ==> r.error == KeyError(settings.compiler)
    {
      BuildCommandResult(settings, State());
      BuildCommand(settings, State())
    }
  }

  /**
   * Two recipes built with the same class-level define list: each gather
   * appends its entries to that one list, so after both gathers it holds the
   * entries twice, and the first recipe's defines are the second's.
   */
  method GatherTwoRecipes(settings: Settings, options: Options) returns (first: seq<Define>, second: seq<Define>)
    requires Supported(settings)
    ensures first == second == WindowsDefines(options) + WindowsDefines(options)
  {
    var shared := new DefineList([]);
    var a := new WxWidgetsRecipe(settings, options, shared);
    var b := new WxWidgetsRecipe(settings, options, shared);
    GatherDefines(settings, options, a.State());
    var e := a.GatherWxConfig();
    ghost var once := shared.items;
    assert once == WindowsDefines(options);
    ghost var before := b.State();
    assert before.defines == once;
    GatherDefines(settings, options, before);
    e := b.GatherWxConfig();
    assert shared.items == once + WindowsDefines(options);
    first := a.compilerDefines.items;
    second := b.compilerDefines.items;
  }
}
