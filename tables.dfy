/**
 * The recipe's inputs (Conan settings and options) and its fixed lookup
 * tables, with the dictionary lookup that raises KeyError on a miss.
 */
module Tables {
  import opened Common
  import opened PyFormat

  /**
   * The build settings. Conan settings compare equal to, and are looked up by,
   * their string values; the compiler runtime is an optional sub-setting.
   */
  datatype Settings = Settings(os: string, compiler: string, runtime: Option<string>, arch: string, buildType: string)

  /** The five boolean options of the recipe. */
  datatype Options = Options(shared: bool, unicode: bool, monolithic: bool, useGui: bool, wxdebug: bool)

  const CompilerPrefixMap: map<string, string> := map["Visual Studio" := "vc"]
  const CompilerIncludeDirMap: map<string, string> := map["Visual Studio" := "msvc"]
  const CompilerRuntimeMap: map<string, map<string, string>> :=
    map["Visual Studio" := map["MDd" := "dynamic", "MD" := "dynamic", "MTd" := "static", "MT" := "static"]]
  const PlatformMap: map<string, string> := map["Windows" := "msw"]
  const CompilerDefinesForPlatformMap: map<string, seq<string>> := map["Windows" := ["__WXMSW__", "WINVER=0x0500"]]
  const CompilerDefinesForCompilerMap: map<string, seq<string>> :=
    map["Visual Studio" := ["_CRT_SECURE_NO_WARNINGS", "UNICODE", "_UNICODE"]]
  const BuildTypeMap: map<string, string> := map["Debug" := "debug", "Release" := "release"]
  /** The build command format "nmake -f makefile.vc {0}", held in parsed form. */
  const BuildCommandFormat: map<string, seq<Piece>> := map["Visual Studio" := [Lit("nmake -f makefile.vc "), Field("0")]]

  /** `m[key]`: the value, or a KeyError naming the key. */
  function Lookup<V>(m: map<string, V>, key: string): (r: Result<V>)
    ensures r.Success? <==> key in m
    ensures r.Success? ==> r.value == m[key]
    ensures r.Failure? ==> r.error == KeyError(key)
  {
    if key in m then Success(m[key]) else Failure(KeyError(key))
  }
}
