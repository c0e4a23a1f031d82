/**
 * The library names the recipe publishes: 23 name formats whose fields
 * `{platform}`, `{version}`, `{unicode}` and `{debug}` are filled by
 * `wx_expand_lib_name_vars`. The formats are held in parsed form (see
 * PyFormat.FormatText for why filling the parsed form is `str.format` on its
 * text): `[Lit("wxjpeg"), Field("debug")]` is the format "wxjpeg{debug}".
 */
module LibNames {
  import opened Common
  import opened PyFormat

  /** `wx_lib_name_formats`, in its order. */
  function WxLibNameFormats(): seq<seq<Piece>>
  {
    seq(23, i requires 0 <= i < 23 => WxLibNameFormat(i))
  }

  /** Entry `i` of `wx_lib_name_formats`. */
  function WxLibNameFormat(i: nat): seq<Piece>
    requires i < 23
  {
    match i
    case 0 => [Lit("wxbase"), Field("version"), Field("unicode"), Field("debug")]
    case 1 => [Lit("wxbase"), Field("version"), Field("unicode"), Field("debug"), Lit("_net")]
    case 2 => [Lit("wxbase"), Field("version"), Field("unicode"), Field("debug"), Lit("_xml")]
    case 3 => [Lit("wx"), Field("platform"), Field("version"), Field("unicode"), Field("debug"), Lit("_adv")]
    case 4 => [Lit("wx"), Field("platform"), Field("version"), Field("unicode"), Field("debug"), Lit("_aui")]
    case 5 => [Lit("wx"), Field("platform"), Field("version"), Field("unicode"), Field("debug"), Lit("_core")]
    case 6 => [Lit("wx"), Field("platform"), Field("version"), Field("unicode"), Field("debug"), Lit("_gl")]
    case 7 => [Lit("wx"), Field("platform"), Field("version"), Field("unicode"), Field("debug"), Lit("_html")]
    case 8 => [Lit("wx"), Field("platform"), Field("version"), Field("unicode"), Field("debug"), Lit("_media")]
    case 9 => [Lit("wx"), Field("platform"), Field("version"), Field("unicode"), Field("debug"), Lit("_propgrid")]
    case 10 => [Lit("wx"), Field("platform"), Field("version"), Field("unicode"), Field("debug"), Lit("_qa")]
    case 11 => [Lit("wx"), Field("platform"), Field("version"), Field("unicode"), Field("debug"), Lit("_ribbon")]
    case 12 => [Lit("wx"), Field("platform"), Field("version"), Field("unicode"), Field("debug"), Lit("_richtext")]
    case 13 => [Lit("wx"), Field("platform"), Field("version"), Field("unicode"), Field("debug"), Lit("_stc")]
    case 14 => [Lit("wx"), Field("platform"), Field("version"), Field("unicode"), Field("debug"), Lit("_webview")]
    case 15 => [Lit("wx"), Field("platform"), Field("version"), Field("unicode"), Field("debug"), Lit("_xrc")]
    case 16 => [Lit("wxexpat"), Field("debug")]
    case 17 => [Lit("wxjpeg"), Field("debug")]
    case 18 => [Lit("wxpng"), Field("debug")]
    case 19 => [Lit("wxregex"), Field("unicode"), Field("debug")]
    case 20 => [Lit("wxscintilla"), Field("debug")]
    case 21 => [Lit("wxtiff"), Field("debug")]
    case _ => [Lit("wxzlib"), Field("debug")]
  }

  /** The keyword arguments every name format is given. */
  function LibNameArgs(platform: string, version: string, unicode: string, debug: string): map<string, string>
  {
    map["platform" := platform, "version" := version, "unicode" := unicode, "debug" := debug]
  }

  /**
   * `[f.format(platform=..., version=..., unicode=..., debug=...) for f in formats]`:
   * one name per format, in order, or the error of the first format that fails.
   */
  function ExpandLibNameVars(formats: seq<seq<Piece>>, platform: string, version: string, unicode: string, debug: string)
    : Result<seq<string>>
  {
    if formats == [] then Success([])
    else
      match Subst(formats[0], LibNameArgs(platform, version, unicode, debug))
      case Failure(e) => Failure(e)
      case Success(name) =>
        match ExpandLibNameVars(formats[1..], platform, version, unicode, debug)
        case Failure(e) => Failure(e)
        case Success(rest) => Success([name] + rest)
  }

  /**
   * A successful expansion has one name per format, in order, each its format
   * filled; a failed one fails with the error of the first format that fails.
   */
  lemma {:induction false} ExpandLibNameVarsMeaning(
    formats: seq<seq<Piece>>, platform: string, version: string, unicode: string, debug: string)
    ensures var r := ExpandLibNameVars(formats, platform, version, unicode, debug);
      var args := LibNameArgs(platform, version, unicode, debug);
      && (r.Success? ==>
            && |r.value| == |formats|
            && forall i :: 0 <= i < |formats| ==> Subst(formats[i], args) == Success(r.value[i]))
      && (r.Failure? ==>
            exists i :: 0 <= i < |formats|
              && Subst(formats[i], args) == Failure(r.error)
              && forall j :: 0 <= j < i ==> Subst(formats[j], args).Success?)
  {
    var args := LibNameArgs(platform, version, unicode, debug);
    if formats != [] && Subst(formats[0], args).Success? {
      ExpandLibNameVarsMeaning(formats[1..], platform, version, unicode, debug);
      var tail := ExpandLibNameVars(formats[1..], platform, version, unicode, debug);
      if tail.Failure? {
        var i :| 0 <= i < |formats[1..]|
          && Subst(formats[1..][i], args) == Failure(tail.error)
          && forall j :: 0 <= j < i ==> Subst(formats[1..][j], args).Success?;
        assert Subst(formats[i + 1], args) == Failure(tail.error);
        assert forall j :: 0 <= j < i + 1 ==> Subst(formats[j], args).Success? by {
          forall j | 0 <= j < i + 1 ensures Subst(formats[j], args).Success? {
            if j > 0 { assert formats[j] == formats[1..][j - 1]; }
          }
        }
      }
    } else if formats != [] {
      assert Subst(formats[0], args).Failure?;
    }
  }

  /** The 23 names, written out: what each format gives once filled. */
  function WxLibNames(platform: string, version: string, unicode: string, debug: string): seq<string>
  {
    seq(23, i requires 0 <= i < 23 => WxLibName(i, platform, version, unicode, debug))
  }

  /** Name `i`, written out. */
  function WxLibName(i: nat, platform: string, version: string, unicode: string, debug: string): string
    requires i < 23
  {
    match i
    case 0 => "wxbase" + version + unicode + debug
    case 1 => "wxbase" + version + unicode + debug + "_net"
    case 2 => "wxbase" + version + unicode + debug + "_xml"
    case 3 => "wx" + platform + version + unicode + debug + "_adv"
    case 4 => "wx" + platform + version + unicode + debug + "_aui"
    case 5 => "wx" + platform + version + unicode + debug + "_core"
    case 6 => "wx" + platform + version + unicode + debug + "_gl"
    case 7 => "wx" + platform + version + unicode + debug + "_html"
    case 8 => "wx" + platform + version + unicode + debug + "_media"
    case 9 => "wx" + platform + version + unicode + debug + "_propgrid"
    case 10 => "wx" + platform + version + unicode + debug + "_qa"
    case 11 => "wx" + platform + version + unicode + debug + "_ribbon"
    case 12 => "wx" + platform + version + unicode + debug + "_richtext"
    case 13 => "wx" + platform + version + unicode + debug + "_stc"
    case 14 => "wx" + platform + version + unicode + debug + "_webview"
    case 15 => "wx" + platform + version + unicode + debug + "_xrc"
    case 16 => "wxexpat" + debug
    case 17 => "wxjpeg" + debug
    case 18 => "wxpng" + debug
    case 19 => "wxregex" + unicode + debug
    case 20 => "wxscintilla" + debug
    case 21 => "wxtiff" + debug
    case _ => "wxzlib" + debug
  }

  /** Filling a list of formats whose every entry fills to the matching name gives those names. */
  lemma {:induction false} ExpandAll(formats: seq<seq<Piece>>, names: seq<string>,
                                     platform: string, version: string, unicode: string, debug: string)
    requires |names| == |formats|
    requires forall i :: 0 <= i < |formats| ==>
      Subst(formats[i], LibNameArgs(platform, version, unicode, debug)) == Success(names[i])
    ensures ExpandLibNameVars(formats, platform, version, unicode, debug) == Success(names)
  {
    if formats != [] {
      assert Subst(formats[0], LibNameArgs(platform, version, unicode, debug)) == Success(names[0]);
      forall i | 0 <= i < |formats[1..]|
        ensures Subst(formats[1..][i], LibNameArgs(platform, version, unicode, debug)) == Success(names[1..][i])
      {
        assert formats[1..][i] == formats[i + 1];
      }
      ExpandAll(formats[1..], names[1..], platform, version, unicode, debug);
      assert [names[0]] + names[1..] == names;
    }
  }

  /** The version, unicode and debug fields followed by a tail. */
  lemma SubstSuffixFields(t: seq<Piece>, platform: string, version: string, unicode: string, debug: string)
    ensures Subst([Field("version"), Field("unicode"), Field("debug")] + t, LibNameArgs(platform, version, unicode, debug))
         == Prepend(version + unicode + debug, Subst(t, LibNameArgs(platform, version, unicode, debug)))
  {
    var args := LibNameArgs(platform, version, unicode, debug);
    assert [Field("version"), Field("unicode"), Field("debug")] + t == [Field("version")] + ([Field("unicode")] + ([Field("debug")] + t));
    SubstCons(Field("version"), [Field("unicode")] + ([Field("debug")] + t), args);
    SubstCons(Field("unicode"), [Field("debug")] + t, args);
    SubstCons(Field("debug"), t, args);
    PrependTwice(unicode, debug, Subst(t, args));
    PrependTwice(version, unicode + debug, Subst(t, args));
    assert version + (unicode + debug) == version + unicode + debug;
  }

  lemma SubstTail(suffix: string, args: map<string, string>)
    ensures Subst([Lit(suffix)], args) == Success(suffix)
  {
    assert [Lit(suffix)][1..] == [];
    assert suffix + [] == suffix;
  }

  lemma SubstBase(suffix: string, platform: string, version: string, unicode: string, debug: string)
    ensures Subst([Lit("wxbase"), Field("version"), Field("unicode"), Field("debug"), Lit(suffix)], LibNameArgs(platform, version, unicode, debug))
         == Success("wxbase" + version + unicode + debug + suffix)
  {
    var args := LibNameArgs(platform, version, unicode, debug);
    var fields := [Field("version"), Field("unicode"), Field("debug")];
    assert [Lit("wxbase"), Field("version"), Field("unicode"), Field("debug"), Lit(suffix)] == [Lit("wxbase")] + (fields + [Lit(suffix)]);
    SubstCons(Lit("wxbase"), fields + [Lit(suffix)], args);
    SubstSuffixFields([Lit(suffix)], platform, version, unicode, debug);
    SubstTail(suffix, args);
    assert "wxbase" + ((version + unicode + debug) + suffix) == "wxbase" + version + unicode + debug + suffix;
  }

  lemma SubstBaseCore(platform: string, version: string, unicode: string, debug: string)
    ensures Subst([Lit("wxbase"), Field("version"), Field("unicode"), Field("debug")], LibNameArgs(platform, version, unicode, debug))
         == Success("wxbase" + version + unicode + debug)
  {
    var args := LibNameArgs(platform, version, unicode, debug);
    var fields := [Field("version"), Field("unicode"), Field("debug")];
    assert [Lit("wxbase"), Field("version"), Field("unicode"), Field("debug")] == [Lit("wxbase")] + (fields + []);
    SubstCons(Lit("wxbase"), fields + [], args);
    SubstSuffixFields([], platform, version, unicode, debug);
    assert Subst([], args) == Success([]);
    assert version + unicode + debug + [] == version + unicode + debug;
    assert "wxbase" + (version + unicode + debug) == "wxbase" + version + unicode + debug;
  }

  lemma SubstGui(suffix: string, platform: string, version: string, unicode: string, debug: string)
    ensures Subst([Lit("wx"), Field("platform"), Field("version"), Field("unicode"), Field("debug"), Lit(suffix)],
                  LibNameArgs(platform, version, unicode, debug))
         == Success("wx" + platform + version + unicode + debug + suffix)
  {
    var args := LibNameArgs(platform, version, unicode, debug);
    var fields := [Field("version"), Field("unicode"), Field("debug")];
    var t := [Lit("wx"), Field("platform"), Field("version"), Field("unicode"), Field("debug"), Lit(suffix)];
    assert t == [Lit("wx")] + ([Field("platform")] + (fields + [Lit(suffix)]));
    SubstCons(Lit("wx"), [Field("platform")] + (fields + [Lit(suffix)]), args);
    SubstCons(Field("platform"), fields + [Lit(suffix)], args);
    SubstSuffixFields([Lit(suffix)], platform, version, unicode, debug);
    SubstTail(suffix, args);
    assert "wx" + (platform + ((version + unicode + debug) + suffix)) == "wx" + platform + version + unicode + debug + suffix;
  }

  lemma SubstDebugOnly(name: string, platform: string, version: string, unicode: string, debug: string)
    ensures Subst([Lit(name), Field("debug")], LibNameArgs(platform, version, unicode, debug)) == Success(name + debug)
  {
    var args := LibNameArgs(platform, version, unicode, debug);
    assert [Lit(name), Field("debug")] == [Lit(name)] + [Field("debug")];
    SubstCons(Lit(name), [Field("debug")], args);
    assert [Field("debug")][1..] == [];
    assert debug + [] == debug;
  }

  lemma SubstRegex(platform: string, version: string, unicode: string, debug: string)
    ensures Subst([Lit("wxregex"), Field("unicode"), Field("debug")], LibNameArgs(platform, version, unicode, debug))
         == Success("wxregex" + unicode + debug)
  {
    var args := LibNameArgs(platform, version, unicode, debug);
    assert [Lit("wxregex"), Field("unicode"), Field("debug")] == [Lit("wxregex")] + ([Field("unicode")] + [Field("debug")]);
    SubstCons(Lit("wxregex"), [Field("unicode")] + [Field("debug")], args);
    SubstCons(Field("unicode"), [Field("debug")], args);
    assert [Field("debug")][1..] == [];
    assert debug + [] == debug;
    assert "wxregex" + (unicode + debug) == "wxregex" + unicode + debug;
  }

  /** Each format fills to the name written out for it. */
  lemma NameAt(i: nat, platform: string, version: string, unicode: string, debug: string)
    requires i < 23
    ensures Subst(WxLibNameFormat(i), LibNameArgs(platform, version, unicode, debug))
         == Success(WxLibName(i, platform, version, unicode, debug))
  {
    var p, v, u, d := platform, version, unicode, debug;
    match i
    case 0 => SubstBaseCore(p, v, u, d);
    case 1 => SubstBase("_net", p, v, u, d);
    case 2 => SubstBase("_xml", p, v, u, d);
    case 3 => SubstGui("_adv", p, v, u, d);
    case 4 => SubstGui("_aui", p, v, u, d);
    case 5 => SubstGui("_core", p, v, u, d);
    case 6 => SubstGui("_gl", p, v, u, d);
    case 7 => SubstGui("_html", p, v, u, d);
    case 8 => SubstGui("_media", p, v, u, d);
    case 9 => SubstGui("_propgrid", p, v, u, d);
    case 10 => SubstGui("_qa", p, v, u, d);
    case 11 => SubstGui("_ribbon", p, v, u, d);
    case 12 => SubstGui("_richtext", p, v, u, d);
    case 13 => SubstGui("_stc", p, v, u, d);
    case 14 => SubstGui("_webview", p, v, u, d);
    case 15 => SubstGui("_xrc", p, v, u, d);
    case 16 => SubstDebugOnly("wxexpat", p, v, u, d);
    case 17 => SubstDebugOnly("wxjpeg", p, v, u, d);
    case 18 => SubstDebugOnly("wxpng", p, v, u, d);
    case 19 => SubstRegex(p, v, u, d);
    case 20 => SubstDebugOnly("wxscintilla", p, v, u, d);
    case 21 => SubstDebugOnly("wxtiff", p, v, u, d);
    case _ => SubstDebugOnly("wxzlib", p, v, u, d);
  }

  /**
   * Expanding the recipe's 23 formats gives the 23 names written out: one name
   * per format, in order, each its format with the fields filled in.
   */
  lemma ExpandWxLibNames(platform: string, version: string, unicode: string, debug: string)
    ensures ExpandLibNameVars(WxLibNameFormats(), platform, version, unicode, debug)
         == Success(WxLibNames(platform, version, unicode, debug))
    ensures |WxLibNames(platform, version, unicode, debug)| == 23
  {
    forall i | 0 <= i < |WxLibNameFormats()|
      ensures Subst(WxLibNameFormats()[i], LibNameArgs(platform, version, unicode, debug))
           == Success(WxLibNames(platform, version, unicode, debug)[i])
    {
      NameAt(i, platform, version, unicode, debug);
    }
    ExpandAll(WxLibNameFormats(), WxLibNames(platform, version, unicode, debug), platform, version, unicode, debug);
  }

  /**
   * The third-party libraries (expat, jpeg, png, scintilla, tiff, zlib) are
   * named by the debug suffix alone: changing the platform, the version or the
   * unicode suffix leaves their names as they are.
   */
  lemma {:induction false} ThirdPartyNamesIgnoreAllButDebug(
    p1: string, v1: string, u1: string, p2: string, v2: string, u2: string, debug: string)
    ensures var r1 := ExpandLibNameVars(WxLibNameFormats(), p1, v1, u1, debug);
            var r2 := ExpandLibNameVars(WxLibNameFormats(), p2, v2, u2, debug);
            && r1.Success? && r2.Success? && |r1.value| == |r2.value| == 23
            && forall i :: 16 <= i < 23 && i != 19 ==> r1.value[i] == r2.value[i]
  {
    ExpandWxLibNames(p1, v1, u1, debug);
    ExpandWxLibNames(p2, v2, u2, debug);
    var n1, n2 := WxLibNames(p1, v1, u1, debug), WxLibNames(p2, v2, u2, debug);
    forall i | 16 <= i < 23 && i != 19
      ensures n1[i] == n2[i]
    {
      assert n1[i] == WxLibName(i, p1, v1, u1, debug);
      assert n2[i] == WxLibName(i, p2, v2, u2, debug);
      ThirdPartyName(i, p1, v1, u1, p2, v2, u2, debug);
    }
  }

  lemma ThirdPartyName(i: nat, p1: string, v1: string, u1: string, p2: string, v2: string, u2: string, debug: string)
    requires 16 <= i < 23 && i != 19
    ensures WxLibName(i, p1, v1, u1, debug) == WxLibName(i, p2, v2, u2, debug)
  {
  }

  /** The regex library is named by the unicode and debug suffixes alone. */
  lemma {:induction false} RegexNameIgnoresPlatformAndVersion(
    p1: string, v1: string, p2: string, v2: string, unicode: string, debug: string)
    ensures var r1 := ExpandLibNameVars(WxLibNameFormats(), p1, v1, unicode, debug);
            var r2 := ExpandLibNameVars(WxLibNameFormats(), p2, v2, unicode, debug);
            && r1.Success? && r2.Success? && |r1.value| == |r2.value| == 23
            && r1.value[19] == r2.value[19] == "wxregex" + unicode + debug
  {
    ExpandWxLibNames(p1, v1, unicode, debug);
    ExpandWxLibNames(p2, v2, unicode, debug);
    assert WxLibNames(p1, v1, unicode, debug)[19] == WxLibName(19, p1, v1, unicode, debug);
    assert WxLibNames(p2, v2, unicode, debug)[19] == WxLibName(19, p2, v2, unicode, debug);
    RegexName(p1, v1, unicode, debug);
    RegexName(p2, v2, unicode, debug);
  }

  lemma RegexName(platform: string, version: string, unicode: string, debug: string)
    ensures WxLibName(19, platform, version, unicode, debug) == "wxregex" + unicode + debug
  {
  }

  /** wxWidgets 3.1 on Windows, unicode, debug: "wxbase31ud" and "wxmsw31ud_core". */
  lemma ExampleNames(platform: string, version: string, unicode: string, debug: string)
    requires platform == "msw" && version == "31" && unicode == "u" && debug == "d"
    ensures var r := ExpandLibNameVars(WxLibNameFormats(), platform, version, unicode, debug);
            && r.Success? && |r.value| == 23
            && r.value[0] == "wxbase31ud"
            && r.value[5] == "wxmsw31ud_core"
  {
    ExpandWxLibNames(platform, version, unicode, debug);
    var names := WxLibNames(platform, version, unicode, debug);
    assert names[0] == WxLibName(0, platform, version, unicode, debug);
    assert names[5] == WxLibName(5, platform, version, unicode, debug);
  }
}
