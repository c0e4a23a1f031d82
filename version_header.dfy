/**
 * Reading the version out of the text of `include/wx/version.h`: three
 * searches for `NAME\s+(\d+)`, one per macro, whose captured digits are
 * turned into integers. The recipe runs under Python 2 with a byte-string
 * pattern, so `\s` is the ASCII whitespace ' ', '\t', '\n', '\v', '\f', '\r'
 * and `\d` the ASCII digits.
 */
module VersionHeader {
  import opened Common

  predicate IsSpace(c: char)
  {
    c == ' ' || '\t' <= c <= '\r'
  }

  predicate IsDigit(c: char)
  {
    '0' <= c <= '9'
  }

  predicate AllOf(s: string, p: char -> bool)
  {
    forall i :: 0 <= i < |s| ==> p(s[i])
  }

  /** Length of the longest prefix of `s` whose characters all satisfy `p`. */
  function LeadingRun(s: string, p: char -> bool): (n: nat)
    ensures n <= |s|
    ensures forall i :: 0 <= i < n ==> p(s[i])
    ensures n < |s| ==> !p(s[n])
  {
    if s != [] && p(s[0]) then 1 + LeadingRun(s[1..], p) else 0
  }

  /** A run is the leading run as soon as the character after it stops it. */
  lemma {:induction false} LeadingRunIs(s: string, p: char -> bool, n: nat)
    requires n <= |s|
    requires forall i :: 0 <= i < n ==> p(s[i])
    requires n < |s| ==> !p(s[n])
    ensures LeadingRun(s, p) == n
  {
    if n > 0 {
      LeadingRunIs(s[1..], p, n - 1);
    }
  }

  /**
   * The pattern `name\s+(\d+)` matches at the start of `s`, with `w`
   * whitespace characters and the captured digits `ds`.
   */
  predicate Matches(s: string, name: string, w: nat, ds: string)
  {
    && w >= 1 && ds != []
    && |name| + w + |ds| <= |s|
    && s[..|name|] == name
    && AllOf(s[|name|..|name| + w], IsSpace)
    && s[|name| + w..|name| + w + |ds|] == ds
    && AllOf(ds, IsDigit)
  }

  /** No further digit follows the capture: `\d+` is greedy. */
  predicate Longest(s: string, name: string, w: nat, ds: string)
  {
    |name| + w + |ds| <= |s| && (|name| + w + |ds| == |s| || !IsDigit(s[|name| + w + |ds|]))
  }

  /** The group the pattern captures when it matches at the start of `s`. */
  function MatchAt(s: string, name: string): Option<string>
  {
    if |s| < |name| || s[..|name|] != name then None
    else
      var rest := s[|name|..];
      var w := LeadingRun(rest, IsSpace);
      if w == 0 then None
      else
        var d := LeadingRun(rest[w..], IsDigit);
        if d == 0 then None else Some(rest[w..][..d])
  }

  /** What `MatchAt` captures is a match of the pattern, and the longest one. */
  lemma MatchAtSound(s: string, name: string)
    ensures MatchAt(s, name).Some? ==>
      exists w :: Matches(s, name, w, MatchAt(s, name).value) && Longest(s, name, w, MatchAt(s, name).value)
  {
    if MatchAt(s, name).Some? {
      var rest := s[|name|..];
      var w := LeadingRun(rest, IsSpace);
      var d := LeadingRun(rest[w..], IsDigit);
      var ds := rest[w..][..d];
      assert s[|name| + w..|name| + w + |ds|] == ds;
      assert s[|name|..|name| + w] == rest[..w];
      assert Matches(s, name, w, ds) && Longest(s, name, w, ds);
    }
  }

  /**
   * Whenever the pattern can match at the start of `s`, `MatchAt` finds a
   * match, and its capture is the longest digit run there.
   */
  lemma MatchAtComplete(s: string, name: string, w: nat, ds: string)
    requires Matches(s, name, w, ds)
    ensures MatchAt(s, name).Some?
    ensures Longest(s, name, w, ds) ==> MatchAt(s, name) == Some(ds)
  {
    var rest := s[|name|..];
    assert forall i :: 0 <= i < w ==> rest[i] == s[|name|..|name| + w][i];
    assert rest[w] == ds[0];
    LeadingRunIs(rest, IsSpace, w);
    assert rest[w..][..|ds|] == ds;
    if Longest(s, name, w, ds) {
      LeadingRunIs(rest[w..], IsDigit, |ds|);
    } else {
      assert LeadingRun(rest[w..], IsDigit) > 0;
    }
  }

  /** `re.search(name + r"\s+(\d+)", s)`: the capture of the leftmost match. */
  function Search(s: string, name: string): Option<string>
    decreases |s|
  {
    if MatchAt(s, name).Some? then MatchAt(s, name)
    else if s == [] then None
    else Search(s[1..], name)
  }

  /** The search returns the capture at the leftmost position where the pattern matches. */
  lemma SearchLeftmost(s: string, name: string)
    ensures Search(s, name).Some? ==>
      exists k :: 0 <= k <= |s| && MatchAt(s[k..], name) == Search(s, name)
        && forall j :: 0 <= j < k ==> MatchAt(s[j..], name).None?
    ensures Search(s, name).None? ==> forall k :: 0 <= k <= |s| ==> MatchAt(s[k..], name).None?
  {
    if Search(s, name).Some? {
      SearchFound(s, name);
    } else {
      SearchNone(s, name);
    }
  }

  /** The pattern matches at none of the first `k` positions of `s`. */
  predicate NoMatchBefore(s: string, name: string, k: nat)
    requires k <= |s|
  {
    forall j :: 0 <= j < k ==> MatchAt(s[j..], name).None?
  }

  lemma {:induction false} SearchFound(s: string, name: string)
    requires Search(s, name).Some?
    ensures exists k :: 0 <= k <= |s| && MatchAt(s[k..], name) == Search(s, name) && NoMatchBefore(s, name, k)
    decreases |s|
  {
    assert s[0..] == s;
    if MatchAt(s, name).Some? {
      assert NoMatchBefore(s, name, 0);
    } else {
      SearchFound(s[1..], name);
      var k :| 0 <= k <= |s[1..]| && MatchAt(s[1..][k..], name) == Search(s[1..], name) && NoMatchBefore(s[1..], name, k);
      assert s[1..][k..] == s[k + 1..];
      NoMatchShift(s, name, k);
      assert MatchAt(s[k + 1..], name) == Search(s, name) && NoMatchBefore(s, name, k + 1);
    }
  }

  /** No match at the start of `s` nor at the first `k` positions of its tail: none at its first `k + 1`. */
  lemma NoMatchShift(s: string, name: string, k: nat)
    requires s != [] && k < |s| && MatchAt(s, name).None? && NoMatchBefore(s[1..], name, k)
    ensures NoMatchBefore(s, name, k + 1)
  {
    forall j | 0 <= j < k + 1 ensures MatchAt(s[j..], name).None? {
      if j == 0 {
        assert s[0..] == s;
      } else {
        assert s[j..] == s[1..][j - 1..];
      }
    }
  }

  lemma {:induction false} SearchNone(s: string, name: string)
    requires Search(s, name).None?
    ensures forall k :: 0 <= k <= |s| ==> MatchAt(s[k..], name).None?
    decreases |s|
  {
    assert s[0..] == s;
    if s != [] {
      SearchNone(s[1..], name);
      forall k | 0 < k <= |s| ensures MatchAt(s[k..], name).None? {
        assert s[k..] == s[1..][k - 1..];
      }
    }
  }

  /** Positions where the pattern cannot match do not change the search. */
  lemma {:induction false} SearchSkip(s: string, t: string, name: string)
    requires forall k :: 0 <= k < |s| ==> MatchAt((s + t)[k..], name).None?
    ensures Search(s + t, name) == Search(t, name)
    decreases |s|
  {
    if s != [] {
      assert (s + t)[0..] == s + t;
      assert (s + t)[1..] == s[1..] + t;
      forall k | 0 <= k < |s[1..]|
        ensures MatchAt((s[1..] + t)[k..], name).None?
      {
        assert (s[1..] + t)[k..] == (s + t)[k + 1..];
      }
      SearchSkip(s[1..], t, name);
    } else {
      assert s + t == t;
    }
  }

  /** A match needs the name's first character where it starts. */
  lemma NoMatchAt(s: string, name: string)
    requires name != [] && (s == [] || s[0] != name[0])
    ensures MatchAt(s, name).None?
  {
    if |s| >= |name| {
      assert s[..|name|][0] == s[0];
    }
  }

  /** `int(ds)` for a run of decimal digits. */
  function DecimalValue(ds: string): (n: nat)
    requires AllOf(ds, IsDigit)
    decreases |ds|
  {
    if ds == [] then 0
    else DecimalValue(ds[..|ds| - 1]) * 10 + (ds[|ds| - 1] as int - '0' as int)
  }

  function DigitChar(d: nat): (c: char)
    requires d < 10
    ensures IsDigit(c) && c as int - '0' as int == d
  {
    ('0' as int + d) as char
  }

  /** `str(n)` of a non-negative integer: its decimal digits, no leading zero. */
  function Decimal(n: nat): (s: string)
    ensures s != [] && AllOf(s, IsDigit)
    ensures |s| > 1 ==> s[0] != '0'
    decreases n
  {
    if n < 10 then [DigitChar(n)] else Decimal(n / 10) + [DigitChar(n % 10)]
  }

  /** `int(str(n)) == n`. */
  lemma {:induction false} DecimalRoundTrip(n: nat)
    ensures DecimalValue(Decimal(n)) == n
    decreases n
  {
    var s := Decimal(n);
    if n >= 10 {
      DecimalRoundTrip(n / 10);
      assert s[..|s| - 1] == Decimal(n / 10);
    }
  }

  /** The `Version` record (major, minor, release). */
  datatype Version = Version(major: nat, minor: nat, release: nat)

  const MajorName := "wxMAJOR_VERSION"
  const MinorName := "wxMINOR_VERSION"
  const ReleaseName := "wxRELEASE_NUMBER"

  /** A macro name with a 'w' in front and nowhere else, like the three above. */
  predicate MacroName(name: string)
  {
    name != [] && name[0] == 'w' && forall i :: 1 <= i < |name| ==> name[i] != 'w'
  }

  /** The three macro names have that shape and differ pairwise. */
  lemma MacroNames()
    ensures MacroName(MajorName) && MacroName(MinorName) && MacroName(ReleaseName)
    ensures Differ(MajorName, MinorName) && Differ(MajorName, ReleaseName) && Differ(MinorName, ReleaseName)
  {
    assert MajorName[3] != MinorName[3];
    assert MajorName[2] != ReleaseName[2];
    assert MinorName[2] != ReleaseName[2];
  }

  /**
   * `read_wx_version` on the text of the header: a macro whose pattern is not
   * found makes `re.search` return None, and `.groups()` on it raises
   * AttributeError.
   */
  function ParseVersion(content: string): Result<Version>
  {
    match (Search(content, MajorName), Search(content, MinorName), Search(content, ReleaseName))
    case (Some(major), Some(minor), Some(release)) =>
      ParsedDigits(content, MajorName, major);
      ParsedDigits(content, MinorName, minor);
      ParsedDigits(content, ReleaseName, release);
      Success(Version(DecimalValue(major), DecimalValue(minor), DecimalValue(release)))
    case _ => Failure(AttributeError)
  }

  /** Reading succeeds exactly when all three macros are found; otherwise it raises AttributeError. */
  lemma ParseVersionMeaning(content: string)
    ensures ParseVersion(content).Success? <==>
      Search(content, MajorName).Some? && Search(content, MinorName).Some? && Search(content, ReleaseName).Some?
    ensures ParseVersion(content).Failure? ==> ParseVersion(content).error == AttributeError
  {
  }

  /** What a search captures is a run of digits. */
  lemma ParsedDigits(content: string, name: string, ds: string)
    requires Search(content, name) == Some(ds)
    ensures AllOf(ds, IsDigit)
  {
    SearchLeftmost(content, name);
    var k :| 0 <= k <= |content| && MatchAt(content[k..], name) == Some(ds);
    MatchAtSound(content[k..], name);
    var w :| Matches(content[k..], name, w, ds) && Longest(content[k..], name, w, ds);
  }

  /** `"".join([str(major), str(minor)])`: the version inside library names. */
  function LibNameVersion(v: Version): (s: string)
    ensures AllOf(s, IsDigit)
  {
    Decimal(v.major) + Decimal(v.minor)
  }

  /** One `#define NAME value` line of the header. */
  function Line(name: string, n: nat): string
  {
    "#define " + name + " " + Decimal(n) + "\n"
  }

  /** A header that defines the three macros, in the order wxWidgets writes them. */
  function Header(v: Version): string
  {
    Line(MajorName, v.major) + (Line(MinorName, v.minor) + Line(ReleaseName, v.release))
  }

  /** Two names that disagree at some position both have. */
  predicate Differ(a: string, b: string)
  {
    exists j :: 0 <= j < |a| && j < |b| && a[j] != b[j]
  }

  /** The characters of a line, outside the name, are no 'w'. */
  lemma LineChars(name: string, n: nat, k: nat)
    requires k < |Line(name, n)| && (k < 8 || k >= 8 + |name|)
    ensures Line(name, n)[k] != 'w'
  {
    var l := Line(name, n);
    var ds := Decimal(n);
    assert l == "#define " + name + " " + ds + "\n";
    if k >= 8 + |name| + 1 && k < 8 + |name| + 1 + |ds| {
      assert l[k] == ds[k - 9 - |name|];
    }
  }

  /** The text "#define " holds no 'w', so no macro name is found inside it. */
  lemma DefinePrefixSkipped(t: string, name: string)
    requires name != [] && name[0] == 'w'
    ensures Search("#define " + t, name) == Search(t, name)
  {
    forall k | 0 <= k < 8
      ensures MatchAt(("#define " + t)[k..], name).None?
    {
      assert ("#define " + t)[k..][0] == "#define "[k];
      NoMatchAt(("#define " + t)[k..], name);
    }
    SearchSkip("#define ", t, name);
  }

  /** The name, one space and a digit run not followed by a digit: a match capturing the run. */
  lemma ValueMatch(name: string, ds: string, tail: string)
    requires ds != [] && AllOf(ds, IsDigit)
    requires tail == [] || !IsDigit(tail[0])
    ensures Search(name + " " + ds + tail, name) == Some(ds)
  {
    var t := name + " " + ds + tail;
    assert Matches(t, name, 1, ds) by {
      assert t[..|name|] == name;
      assert t[|name|..|name| + 1] == " ";
      assert t[|name| + 1..|name| + 1 + |ds|] == ds;
    }
    assert Longest(t, name, 1, ds) by {
      if tail != [] {
        assert t[|name| + 1 + |ds|] == tail[0];
      }
    }
    MatchAtComplete(t, name, 1, ds);
  }

  /** The search finds the value on the line that defines the macro. */
  lemma LineMatch(name: string, n: nat, rest: string)
    requires MacroName(name)
    ensures Search(Line(name, n) + rest, name) == Some(Decimal(n))
  {
    var ds := Decimal(n);
    var t := name + " " + ds + ("\n" + rest);
    assert Line(name, n) + rest == "#define " + t;
    DefinePrefixSkipped(t, name);
    ValueMatch(name, ds, "\n" + rest);
  }

  /** A line defining another macro, whose name only has a 'w' in front, is passed over. */
  lemma LineSkip(name: string, n: nat, other: string, rest: string)
    requires MacroName(name) && MacroName(other) && Differ(name, other)
    ensures Search(Line(name, n) + rest, other) == Search(rest, other)
  {
    var l := Line(name, n);
    forall k | 0 <= k < |l|
      ensures MatchAt((l + rest)[k..], other).None?
    {
      var x := (l + rest)[k..];
      assert x[0] == l[k];
      if k < 8 || k > 8 {
        if k < 8 || k >= 8 + |name| {
          LineChars(name, n, k);
        } else {
          assert l[k] == name[k - 8];
        }
        NoMatchAt(x, other);
      } else {
        var j :| 0 <= j < |name| && j < |other| && name[j] != other[j];
        assert x[j] == name[j];
        if |x| >= |other| {
          assert x[..|other|][j] != other[j];
        }
      }
    }
    SearchSkip(l, rest, other);
  }

  lemma MajorFound(v: Version)
    ensures Search(Header(v), MajorName) == Some(Decimal(v.major))
  {
    MacroNames();
    LineMatch(MajorName, v.major, Line(MinorName, v.minor) + Line(ReleaseName, v.release));
  }

  lemma MinorFound(v: Version)
    ensures Search(Header(v), MinorName) == Some(Decimal(v.minor))
  {
    MacroNames();
    var l2, l3 := Line(MinorName, v.minor), Line(ReleaseName, v.release);
    LineSkip(MajorName, v.major, MinorName, l2 + l3);
    LineMatch(MinorName, v.minor, l3);
  }

  lemma ReleaseFound(v: Version)
    ensures Search(Header(v), ReleaseName) == Some(Decimal(v.release))
  {
    MacroNames();
    var l2, l3 := Line(MinorName, v.minor), Line(ReleaseName, v.release);
    LineSkip(MajorName, v.major, ReleaseName, l2 + l3);
    LineSkip(MinorName, v.minor, ReleaseName, l3);
    assert l3 + [] == l3;
    LineMatch(ReleaseName, v.release, []);
  }

  /** Reading back a header written from a version gives that version. */
  lemma ParseVersionHeader(v: Version)
    ensures ParseVersion(Header(v)) == Success(v)
  {
    MajorFound(v);
    MinorFound(v);
    ReleaseFound(v);
    DecimalRoundTrip(v.major);
    DecimalRoundTrip(v.minor);
    DecimalRoundTrip(v.release);
  }

  /** A header without the release macro cannot be read: AttributeError. */
  lemma {:induction false} ParseVersionMissingRelease(major: nat, minor: nat)
    ensures ParseVersion(Line(MajorName, major) + Line(MinorName, minor)) == Failure(AttributeError)
  {
    var l1, l2 := Line(MajorName, major), Line(MinorName, minor);
    MacroNames();
    assert l2 == l2 + [];
    LineSkip(MajorName, major, ReleaseName, l2);
    LineSkip(MinorName, minor, ReleaseName, []);
  }

  /** wxWidgets 3.1.5: the library-name version is "31". */
  lemma ExampleVersion(v: Version)
    requires v == Version(3, 1, 5)
    ensures ParseVersion(Header(v)) == Success(v)
    ensures LibNameVersion(v) == "31"
  {
    ParseVersionHeader(v);
  }
}
