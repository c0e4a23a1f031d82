/**
 * Python's `str.format` restricted to what the recipe uses: replacement fields
 * `{name}` whose name is looked up among the keyword arguments (a positional
 * argument `{0}` is looked up under the key "0"), and the escapes `{{` and `}}`.
 *
 * `Format` scans the format string left to right, as Python does, and fails at
 * the first problem it meets. `Text` renders a parsed template (a sequence of
 * literal texts and fields) back into a format string, and `Subst` fills a
 * parsed template; `FormatText` proves that formatting the rendered text is
 * the same as filling the template.
 */
module PyFormat {
  import opened Common

  /** Keeps an error; puts `p` in front of a successful result. */
  function Prepend(p: string, r: Result<string>): (q: Result<string>)
    ensures q.Success? <==> r.Success?
    ensures q.Success? ==> q.value == p + r.value
    ensures q.Failure? ==> q == r
  {
    match r
    case Success(s) => Success(p + s)
    case Failure(e) => Failure(e)
  }

  /** Index of the first '}' in `s`, if there is one. */
  function CloseIndex(s: string): (r: Option<nat>)
    ensures r.Some? ==> r.value < |s| && s[r.value] == '}' && '}' !in s[..r.value]
    ensures r.None? ==> '}' !in s
  {
    if s == [] then None
    else if s[0] == '}' then Some(0)
    else
      match CloseIndex(s[1..])
      case None => None
      case Some(k) =>
        assert s[..k + 1] == [s[0]] + s[1..][..k];
        Some(k + 1)
  }

  /**
   * `s.format(**args)`. A '{' that no '}' closes, or a '{' inside a field, is a
   * ValueError, and so is a '}' that is not doubled; a field name missing from
   * `args` is a KeyError naming it.
   */
  function Format(s: string, args: map<string, string>): (r: Result<string>)
    decreases |s|
  {
    if s == [] then Success([])
    else if s[0] == '{' then
      if |s| > 1 && s[1] == '{' then Prepend("{", Format(s[2..], args))
      else
        match CloseIndex(s[1..])
        case None => Failure(ValueError)
        case Some(k) =>
          var name := s[1..k + 1];
          if '{' in name then Failure(ValueError)
          else if name !in args then Failure(KeyError(name))
          else Prepend(args[name], Format(s[k + 2..], args))
    else if s[0] == '}' then
      if |s| > 1 && s[1] == '}' then Prepend("}", Format(s[2..], args))
      else Failure(ValueError)
    else Prepend([s[0]], Format(s[1..], args))
  }

  /** One part of a parsed format string. */
  datatype Piece = Lit(text: string) | Field(name: string)

  /** A field name that needs no escaping and ends at its closing brace. */
  predicate PlainName(name: string)
  {
    '{' !in name && '}' !in name
  }

  predicate PlainFields(t: seq<Piece>)
  {
    forall i :: 0 <= i < |t| && t[i].Field? ==> PlainName(t[i].name)
  }

  /** A literal text written as format-string text: every brace doubled. */
  function Escape(s: string): string
  {
    if s == [] then []
    else (if s[0] == '{' then "{{" else if s[0] == '}' then "}}" else [s[0]]) + Escape(s[1..])
  }

  function PieceText(p: Piece): string
  {
    match p
    case Lit(s) => Escape(s)
    case Field(n) => "{" + n + "}"
  }

  /** The format string that a parsed template stands for. */
  function Text(t: seq<Piece>): string
  {
    if t == [] then [] else PieceText(t[0]) + Text(t[1..])
  }

  /** Fills the fields of a parsed template, failing at the first unknown name. */
  function Subst(t: seq<Piece>, args: map<string, string>): Result<string>
  {
    if t == [] then Success([])
    else
      match t[0]
      case Lit(s) => Prepend(s, Subst(t[1..], args))
      case Field(n) =>
        if n in args then Prepend(args[n], Subst(t[1..], args)) else Failure(KeyError(n))
  }

  /** Filling succeeds exactly when every field names an argument; it then fails with a KeyError. */
  lemma {:induction false} SubstSucceeds(t: seq<Piece>, args: map<string, string>)
    ensures Subst(t, args).Success? <==> forall i :: 0 <= i < |t| && t[i].Field? ==> t[i].name in args
    ensures Subst(t, args).Failure? ==> Subst(t, args).error.KeyError?
  {
    if t != [] {
      SubstSucceeds(t[1..], args);
      assert forall i :: 1 <= i < |t| ==> t[i] == t[1..][i - 1];
    }
  }

  /** Filling a template one piece at a time. */
  lemma SubstCons(p: Piece, t: seq<Piece>, args: map<string, string>)
    ensures Subst([p] + t, args) ==
      if p.Lit? then Prepend(p.text, Subst(t, args))
      else if p.name in args then Prepend(args[p.name], Subst(t, args))
      else Failure(KeyError(p.name))
  {
    assert ([p] + t)[1..] == t;
  }

  lemma {:induction false} FormatEscape(s: string, rest: string, args: map<string, string>)
    ensures Format(Escape(s) + rest, args) == Prepend(s, Format(rest, args))
    decreases |s|
  {
    if s == [] {
      assert Escape(s) + rest == rest;
      assert Prepend(s, Format(rest, args)) == Format(rest, args) by {
        if Format(rest, args).Success? { assert s + Format(rest, args).value == Format(rest, args).value; }
      }
    } else {
      var head := if s[0] == '{' then "{{" else if s[0] == '}' then "}}" else [s[0]];
      var tail := Escape(s[1..]) + rest;
      assert Escape(s) + rest == head + tail;
      FormatEscape(s[1..], rest, args);
      assert (head + tail)[|head|..] == tail;
      assert [s[0]] + s[1..] == s;
      var f := Format(head + tail, args);
      assert f == Prepend([s[0]], Format(tail, args));
      PrependTwice([s[0]], s[1..], Format(rest, args));
    }
  }

  lemma PrependTwice(p: string, q: string, r: Result<string>)
    ensures Prepend(p, Prepend(q, r)) == Prepend(p + q, r)
  {
    if r.Success? {
      assert p + (q + r.value) == (p + q) + r.value;
    }
  }

  lemma {:induction false} FormatField(name: string, rest: string, args: map<string, string>)
    requires PlainName(name)
    ensures Format("{" + name + "}" + rest, args)
         == if name in args then Prepend(args[name], Format(rest, args)) else Failure(KeyError(name))
  {
    var s := "{" + name + "}" + rest;
    assert s[1..] == name + "}" + rest;
    var k := |name|;
    assert CloseIndex(s[1..]) == Some(k) by {
      CloseAt(name, rest);
    }
    assert s[1..k + 1] == name;
    assert s[k + 2..] == rest;
  }

  lemma {:induction false} CloseAt(name: string, rest: string)
    requires '}' !in name
    ensures CloseIndex(name + "}" + rest) == Some(|name|)
    decreases |name|
  {
    var s := name + "}" + rest;
    if name != [] {
      assert s[0] == name[0];
      assert s[1..] == name[1..] + "}" + rest;
      CloseAt(name[1..], rest);
    }
  }

  /** Formatting the text of a template fills the template. */
  lemma {:induction false} FormatText(t: seq<Piece>, args: map<string, string>)
    requires PlainFields(t)
    ensures Format(Text(t), args) == Subst(t, args)
  {
    if t == [] {
    } else {
      assert PlainFields(t[1..]) by {
        forall i | 0 <= i < |t[1..]| && t[1..][i].Field? ensures PlainName(t[1..][i].name) {
          assert t[1..][i] == t[i + 1];
        }
      }
      FormatText(t[1..], args);
      match t[0]
      case Lit(s) =>
        FormatEscape(s, Text(t[1..]), args);
      case Field(n) =>
        assert PlainName(n);
        FormatField(n, Text(t[1..]), args);
    }
  }

  /**
   * Filling a template depends only on the arguments its fields name: two
   * argument maps that agree on those names give the same result.
   */
  lemma {:induction false} SubstDependsOnFieldsOnly(t: seq<Piece>, a1: map<string, string>, a2: map<string, string>)
    requires forall i :: 0 <= i < |t| && t[i].Field? ==>
      (t[i].name in a1 <==> t[i].name in a2) && (t[i].name in a1 ==> a1[t[i].name] == a2[t[i].name])
    ensures Subst(t, a1) == Subst(t, a2)
  {
    if t != [] {
      SubstDependsOnFieldsOnly(t[1..], a1, a2);
      if t[0].Field? {
        assert (t[0].name in a1 <==> t[0].name in a2);
      }
    }
  }
}
