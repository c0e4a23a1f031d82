# wxWidgets Conan recipe: the configuration resolver

This project models the configuration resolver of the Conan recipe that packages
wxWidgets (`conanfile.py`). From the Conan settings (os, compiler, compiler runtime,
arch, build type) and five boolean options (shared, unicode, monolithic, use_gui,
wxdebug), the recipe derives the following values through fixed lookup tables:

- the platform tag, the compiler prefix and the runtime linkage;
- the unicode and debug suffixes;
- the library directory, the include directories and the build directory;
- the nmake parameter line;
- the compiler defines;
- the 23 library names;
- the wxWidgets version, read out of `include/wx/version.h`.

The modules follow the recipe's pieces:

| module | file | what it holds |
|---|---|---|
| `Common` | `common.dfy` | `Option`, `Result`, the Python exception kinds the recipe can raise (`KeyError`, `ValueError`, `TypeError`, `AttributeError`) and `str()` of a value that may be None |
| `PyFormat` | `pyformat.dfy` | Python's `str.format` with named fields and `{{`/`}}` escapes, over format strings and over parsed templates, with the proof that the two agree |
| `PosixPath` | `posix_path.dfy` | `posixpath.join` of two components |
| `Tables` | `tables.dfy` | the settings and options, the recipe's lookup tables, and the dictionary lookup that raises KeyError |
| `LibNames` | `lib_names.dfy` | the 23 library-name formats and `wx_expand_lib_name_vars` |
| `VersionHeader` | `version_header.dfy` | the search for `NAME\s+(\d+)`, `int()` and `str()` of decimals, and `read_wx_version` on the text of the header |
| `Config` | `config.dfy` | the recipe's fields as a value (`RecipeState`); each configuration step as a function from the fields before it to the fields after it and the exception it raised; the properties of those functions |
| `Recipe` | `recipe.dfy` | the recipe object as a class whose methods assign its fields one by one, as the recipe does, each proved to end where the matching `Config` function says; the class-level define list as a separate object that recipes share |

The model is shaped by the following behaviours of the code:

- **The GUI define.** `config_compiler_defines` (conanfile.py:151) appends the string
  "wxUSE_GUI=1" when use_gui is set. Otherwise it appends the *integer* 0, because
  `"wxUSE_GUI=%s" % 1 if use_gui else 0` groups as `("wxUSE_GUI=%s" % 1) if use_gui else 0`.
  The expression never produces the string "wxUSE_GUI=0"; when use_gui is false the entry
  is the integer 0. The model keeps this, and `Define` has an integer case for this entry.
- **The shared define list.** `wx_compiler_defines` is a class attribute that is only
  appended to. Every recipe object, and every gather, extends the same list:
  - `Config.GatherTwice` proves that a second gather appends every entry again;
  - `Recipe.GatherTwoRecipes` proves that two recipe objects see the same doubled list.
- **Library names in `source`.** `source` expands the library names before any gather
  has set the platform and the suffixes. The platform is then Python's None, which
  `str.format` writes as "None" (`Config.SourceBeforeGather`).
- **Include directories.** `package_info` hands over the include directories in the order
  include, platform include, compiler include (conanfile.py:143).
- **Regular expressions.** The recipe runs under Python 2, so in the version search `\s`
  is ASCII whitespace and `\d` an ASCII digit.
- **`posixpath.join` with one argument.** The library directory is built with
  `posixpath.join` of a single argument (conanfile.py:199). That call returns its argument
  unchanged, so `LibsDir` is the formatted string itself.
- **Settings as strings.** The settings are strings, as Conan compares and looks them up.
  A value missing from a table raises KeyError naming that value.

## Model

| member | source | states |
|---|---|---|
| Tables.Lookup | conanfile.py:186-191 | A table lookup succeeds exactly when the key is in the table and gives its entry; a miss is a KeyError naming the key |
| PyFormat.FormatText | conanfile.py:167-172 | Python's `format` of the text of a template with plain field names fills the template's fields: formatting a format string and filling its parsed form agree |
| PyFormat.SubstSucceeds | conanfile.py:167-172 | Filling a template succeeds exactly when every field names a given argument; otherwise it raises KeyError |
| PyFormat.SubstDependsOnFieldsOnly | conanfile.py:58-64 | Filling a template depends only on the arguments its fields name |
| PosixPath.JoinParts | conanfile.py:162-163 | `posixpath.join(a, b)` ends with b; a relative b keeps a in front, with exactly one '/' between them when a is non-empty and does not end in '/'; an absolute b replaces a |
| LibNames.ExpandLibNameVarsMeaning | conanfile.py:165-173 | Expanding a list of formats gives one name per format, in order, each its format filled with platform, version, unicode and debug; otherwise it raises the error of the first format that fails |
| LibNames.ExpandWxLibNames | conanfile.py:41-65 | Expanding the recipe's 23 formats succeeds and gives the 23 names written out, in format order, each with every field replaced by its value |
| LibNames.ThirdPartyNamesIgnoreAllButDebug | conanfile.py:58-64 | The expat, jpeg, png, scintilla, tiff and zlib names are the same for any platform, version and unicode suffix; only the debug suffix changes them |
| LibNames.RegexNameIgnoresPlatformAndVersion | conanfile.py:61 | The regex library is "wxregex" + unicode suffix + debug suffix, whatever the platform and version |
| LibNames.ExampleNames | conanfile.py:42-47 | On msw with version "31", unicode "u" and debug "d", the first name is "wxbase31ud" and the core library "wxmsw31ud_core" |
| VersionHeader.MatchAtSound | conanfile.py:179-181 | A match at a position is the macro name, one or more whitespace characters, then a digit run that no further digit follows |
| VersionHeader.MatchAtComplete | conanfile.py:179-181 | Wherever the pattern can match, the match is found, and its capture is the longest digit run there |
| VersionHeader.SearchLeftmost | conanfile.py:179-181 | `re.search` returns the capture at the leftmost position where the pattern matches, and finds nothing only when it matches nowhere |
| VersionHeader.SearchSkip | conanfile.py:179-181 | Text where the pattern cannot match, in front of the rest, does not change what the search finds |
| VersionHeader.Decimal | conanfile.py:124 | `str(n)` is a non-empty run of digits with no leading zero |
| VersionHeader.DecimalRoundTrip | conanfile.py:179-181 | `int(str(n)) == n` |
| VersionHeader.ParseVersionMeaning | conanfile.py:175-183 | Reading the version succeeds exactly when all three macros are found; a missing one raises AttributeError (`None.groups()`) |
| VersionHeader.ParsedDigits | conanfile.py:179-181 | What a search captures is a run of ASCII digits, so `int()` of it is defined |
| VersionHeader.LibNameVersion | conanfile.py:124 | The library-name version is all digits: the decimal major followed by the decimal minor |
| VersionHeader.ParseVersionHeader | conanfile.py:175-183 | Reading back a header that defines the three macros gives the version they were written from |
| VersionHeader.ParseVersionMissingRelease | conanfile.py:181 | A header without the release macro cannot be read: AttributeError |
| VersionHeader.ExampleVersion | conanfile.py:124 | The header of 3.1.5 reads as (3, 1, 5), and its library-name version is "31" |
| Config.LibsDirFormat | conanfile.py:199-204 | "lib/{0}_{1}{2}" filled with the compiler prefix, "x64_" for x86_64 and "" otherwise, and "dll" when shared and "lib" otherwise is `LibsDir` |
| Config.LibsDirExamples | conanfile.py:199-204 | Visual Studio, x86_64, shared gives "lib/vc_x64_dll"; Visual Studio, x86, static gives "lib/vc_lib" |
| Config.CompileParamsFormat | conanfile.py:210-217 | The nmake parameter format filled with the linkage, 1 or 0 for each of unicode, shared and monolithic, x64 or x86, and the build name is `CompileParams` |
| Config.CompilerDefinesResult | conanfile.py:147-158 | `config_compiler_defines` on Windows with Visual Studio appends `WindowsDefines` and succeeds; another os raises a KeyError naming the os; Windows with another compiler raises a KeyError naming the compiler |
| Config.WindowsDefinesContent | conanfile.py:147-158 | "__WXDEBUG__" is appended exactly when wxdebug; "wxUSE_GUI=1" exactly when use_gui and the integer 0 exactly when not; "WXUSINGDLL" exactly when shared; the five platform and compiler defines last, in table order; the debug entry first and the GUI entry right after |
| Config.FixedDefines | conanfile.py:95-100 | No platform or compiler define is one of the optional entries |
| Config.SupportedSettings | conanfile.py:78-104 | Every lookup of a gather succeeds exactly for Windows, Visual Studio, no runtime or one of MDd, MD, MTd, MT, and Debug or Release |
| Config.GatherError | conanfile.py:186-216 | A gather raises the KeyError of the first lookup that misses: the os, the compiler, the runtime, then the build type; it raises nothing exactly when the settings are supported |
| Config.GatherPartial | conanfile.py:185-217 | A gather that fails on the os changes no field; one that fails on the build type has already appended the defines and set the build directory, but not the parameters |
| Config.SupportedLookups | conanfile.py:186-191 | With supported settings the platform is "msw", the prefix "vc", the runtime linkage as the runtime table says, and the build name "debug" or "release" |
| Config.IncludeDirsResult | conanfile.py:160-163 | With Visual Studio and platform "msw", `config_include_dirs` sets "include", "include/msvc" and "lib/msw" + unicode suffix, changes nothing else and raises nothing |
| Config.GatherResult | conanfile.py:185-217 | A supported gather sets every field it assigns to its value: platform, prefix, linkage, suffixes, library, include and build directories, nmake parameters. It appends the Windows defines to the shared list and keeps the fields `source` set |
| Config.GatherDefines | conanfile.py:206 | A supported gather raises nothing and appends the Windows defines to the list once |
| Config.GatherSuffixes | conanfile.py:193-197 | On a fresh recipe the unicode suffix is "u" exactly when the unicode option is set and "" exactly when not; the debug suffix is "d" exactly when the build type is Debug and "" exactly when not |
| Config.GatherLinkage | conanfile.py:189-191 | On a fresh recipe the linkage is "dynamic" exactly when no runtime, MD or MDd is set, and "static" exactly when MT or MTd is set |
| Config.GatherTwice | conanfile.py:73 | A second gather changes no field except the shared define list, to which it appends every entry again |
| Config.BuildCommandResult | conanfile.py:129 | `build` runs "nmake -f makefile.vc " followed by the parameters ("[]" while they still hold the class default []); a compiler without a command format is a KeyError, which cannot happen after a gather because both compiler tables have the same keys |
| Config.SourceResult | conanfile.py:123-125 | `source` sets the version, the library-name version and the 23 names expanded with the current fields; an unreadable header raises AttributeError and changes nothing |
| Config.SourceBeforeGather | conanfile.py:125 | On a fresh recipe `source` names the GUI libraries with platform "None" and empty suffixes: "wxbase" + version and "wxNone" + version + "_core" |
| Config.PackageInfoResult | conanfile.py:140-145 | `package_info` gathers, then hands over [include, platform include, compiler include], the names `source` left, and the list with this gather's defines appended |
| Config.PackageInfoUnsupported | conanfile.py:140-141 | `package_info` with unsupported settings raises the gather's KeyError |
| Recipe.DefineList.Append | conanfile.py:149 | `list.append` puts one entry at the end and keeps the others |
| Recipe.DefineList.Extend | conanfile.py:157-158 | `list.extend` puts one string entry per string at the end, in order, and keeps the others |
| Recipe.WxWidgetsRecipe.constructor | conanfile.py:37-76 | A new recipe holds the class defaults and shares the define list it is given |
| Recipe.WxWidgetsRecipe.ConfigCompilerDefines | conanfile.py:147-158 | Appends to the shared list exactly the entries `CompilerDefines` gives, keeps what was there, and raises its KeyError |
| Recipe.WxWidgetsRecipe.ConfigIncludeDirs | conanfile.py:160-163 | Ends in the fields and the exception `IncludeDirs` gives; `None + str` on an unset platform is a TypeError |
| Recipe.WxWidgetsRecipe.GatherWxConfig | conanfile.py:185-217 | Ends in the fields, the define list and the exception `GatherSpec` gives |
| Recipe.WxWidgetsRecipe.AssignLinkage | conanfile.py:189-191 | The runtime lookup, then the rest of the gather: ends where `WithLinkage` says |
| Recipe.WxWidgetsRecipe.GatherPathsStep | conanfile.py:193-217 | The gather after its lookups: ends where `GatherPaths` says |
| Recipe.WxWidgetsRecipe.AssignSuffixes | conanfile.py:193-204 | Sets the suffixes and the library directory as `WithSuffixes` says, and nothing else |
| Recipe.WxWidgetsRecipe.AssignBuildParams | conanfile.py:209-217 | Sets the build directory, then raises the build type's KeyError or sets the nmake parameters, as `WithBuildParams` says |
| Recipe.WxWidgetsRecipe.Source | conanfile.py:123-125 | Ends in the fields and the exception `SourceSpec` gives for the header text |
| Recipe.WxWidgetsRecipe.NameLibraries | conanfile.py:124-125 | Sets the version, the library-name version and the expanded names, as `WithVersion` says |
| Recipe.WxWidgetsRecipe.PackageInfo | conanfile.py:140-145 | Gathers, then returns the three include directories, the library names and the defines, as `PackageInfoSpec` says |
| Recipe.WxWidgetsRecipe.BuildCommandLine | conanfile.py:129 | The build command is "nmake -f makefile.vc " followed by the parameters, exactly when the compiler is Visual Studio; otherwise a KeyError naming the compiler |
| Recipe.GatherTwoRecipes | conanfile.py:73 | Two recipes sharing the class-level list, each gathered once, both see the Windows defines twice |

## Left out

- `source`'s git clone (conanfile.py:112-121) runs an external process. Only the reading
  of the header and the naming of the libraries are modelled.
- Opening `include/wx/version.h` is I/O. `Source` is given the file's text.
- `build` (conanfile.py:127-129) changes the working directory with `os.chdir`
  (file-system state) and runs nmake (an external process). Only the command line it
  runs is modelled (`BuildCommandLine`).
- Config.BuildCommand: models conanfile.py:129 only. The join at conanfile.py:128
  (`os.path.join(repo_subdir, wx_build_dir)`) raises while `wx_build_dir` is still None,
  before any gather; the model ignores that join.
- `package` (conanfile.py:131-138) copies files, which is file-system I/O.
- The diagnostic printing at the end of `gather_wx_config` (conanfile.py:219-228) is
  output only.
- Conan's `settings`, `options` and `cpp_info` objects are foreign types:
  - settings and options are plain datatypes;
  - Conan's own validation of the settings values is not modelled;
  - `package_info` returns what it assigns to `cpp_info`.
- Recipe.WxWidgetsRecipe.PackageInfo: `cpp_info.defines` is the shared list object
  itself, so later appends would show through it. The model hands over a copy of the
  list's contents.
- Regular expressions in general are not modelled. Only the search for a macro name,
  whitespace and digits that `read_wx_version` uses is.
- Python's `str.format` is modelled only for named and positional fields and the `{{`/`}}`
  escapes. Conversions, format specs, attribute and index access in fields are not.
  - The recipe's formats are held as parsed templates. `PyFormat.FormatText` proves that
    formatting the text of a template equals filling the template; the model does not
    prove which text each of the recipe's templates has.
  - The nmake parameter values are given to `format` as strings. The recipe passes the
    integers 1 and 0, which `format` writes the same way.
- The methods `AssignLinkage`, `GatherPathsStep`, `AssignSuffixes`, `AssignBuildParams`
  and `NameLibraries` split `gather_wx_config` and `source` into
  consecutive parts, each with its own contract.
  - Run in order, they do what the recipe's single method does.
  - The splits keep each proof small.
- The git branch name (conanfile.py:113) and the fields only `package` reads
  (`repo_subdir`, the git URL) are not modelled.
