/**
  The pieces of Python's built-in string and path behaviour that the kernel
  scripts rely on, stated over `string` (a sequence of code points):

  - `<` and `<=` on `str`, which the variant dispatch uses to compare version
    strings;
  - `os.path.join` (POSIX flavour) for two components, and `os.path.basename`;
  - `str.format` restricted to the replacement fields the scripts use:
    automatically numbered `{}` fields and the `{{` / `}}` brace escapes.
 */
module PyText {
  import opened Wrappers

  // ---------------------------------------------------------------------
  // String ordering
  // ---------------------------------------------------------------------

  /** Python's `a < b` on `str`: code points are compared left to right, and
      when one string is a proper prefix of the other the shorter is smaller.
      (Dafny's own `<` on sequences means "proper prefix" only.) */
  predicate LexLt(a: string, b: string)
    decreases |a|
  {
    if |b| == 0 then false
    else if |a| == 0 then true
    else if a[0] != b[0] then a[0] < b[0]
    else LexLt(a[1..], b[1..])
  }

  /** Python's `a <= b` on `str`, which holds exactly when `b < a` does
      not. */
  function LexLe(a: string, b: string): (r: bool)
    ensures r <==> !LexLt(b, a)
  {
    LexLtTrichotomy(a, b);
    LexLt(a, b) || a == b
  }

  /** `a` is a proper prefix of `b`. */
  ghost predicate ProperPrefix(a: string, b: string)
  {
    |a| < |b| && a == b[..|a|]
  }

  /** At the first position where `a` and `b` differ, `a` holds the smaller
      code point. */
  ghost predicate SmallerAtFirstDifference(a: string, b: string)
  {
    exists k :: 0 <= k < |a| && k < |b| && a[..k] == b[..k] && a[k] < b[k]
  }

  /** The recursive definition agrees with the textbook one: `a < b` exactly
      when `a` is a proper prefix of `b` or is smaller at the first position
      where they differ. */
  lemma {:induction false} LexLtCharacterized(a: string, b: string)
    ensures LexLt(a, b) <==> ProperPrefix(a, b) || SmallerAtFirstDifference(a, b)
    decreases |a|
  {
    if |b| == 0 {
    } else if |a| == 0 {
      assert a == b[..0];
    } else if a[0] != b[0] {
      if a[0] < b[0] {
        assert a[..0] == b[..0];
      }
      if SmallerAtFirstDifference(a, b) {
        var k :| 0 <= k < |a| && k < |b| && a[..k] == b[..k] && a[k] < b[k];
        assert k == 0;
      }
    } else {
      LexLtCharacterized(a[1..], b[1..]);
      ProperPrefixStep(a, b);
      SmallerAtFirstDifferenceStep(a, b);
    }
  }

  /** Dropping a common first character keeps a proper prefix a proper
      prefix, and nothing else becomes one. */
  lemma ProperPrefixStep(a: string, b: string)
    requires |a| > 0 && |b| > 0 && a[0] == b[0]
    ensures ProperPrefix(a, b) <==> ProperPrefix(a[1..], b[1..])
  {
    var a', b' := a[1..], b[1..];
    if ProperPrefix(a', b') {
      assert a == [a[0]] + a' && b[..|a|] == [b[0]] + b'[..|a'|];
    }
    if ProperPrefix(a, b) {
      assert a' == a[..|a|][1..] == b[..|a|][1..] == b'[..|a'|];
    }
  }

  /** Dropping a common first character moves the first difference one
      place left and keeps which side is smaller there. */
  lemma SmallerAtFirstDifferenceStep(a: string, b: string)
    requires |a| > 0 && |b| > 0 && a[0] == b[0]
    ensures SmallerAtFirstDifference(a, b) <==> SmallerAtFirstDifference(a[1..], b[1..])
  {
    var a', b' := a[1..], b[1..];
    if SmallerAtFirstDifference(a', b') {
      var k :| 0 <= k < |a'| && k < |b'| && a'[..k] == b'[..k] && a'[k] < b'[k];
      assert a[..k + 1] == [a[0]] + a'[..k] && b[..k + 1] == [b[0]] + b'[..k];
      assert a[k + 1] < b[k + 1];
    }
    if SmallerAtFirstDifference(a, b) {
      var k :| 0 <= k < |a| && k < |b| && a[..k] == b[..k] && a[k] < b[k];
      assert k > 0;
      assert a'[..k - 1] == a[..k][1..] == b[..k][1..] == b'[..k - 1];
      assert a'[k - 1] < b'[k - 1];
    }
  }

  /** No string is smaller than itself. */
  lemma {:induction false} LexLtIrreflexive(a: string)
    ensures !LexLt(a, a)
    decreases |a|
  {
    if |a| > 0 {
      LexLtIrreflexive(a[1..]);
    }
  }

  /** `<` on `str` is transitive. */
  lemma {:induction false} LexLtTransitive(a: string, b: string, c: string)
    requires LexLt(a, b) && LexLt(b, c)
    ensures LexLt(a, c)
    decreases |a|
  {
    if |a| > 0 && a[0] == b[0] && b[0] == c[0] {
      LexLtTransitive(a[1..], b[1..], c[1..]);
    }
  }

  /** Any two strings are ordered one way, the other way, or equal, and only
      one of the three holds. */
  lemma {:induction false} LexLtTrichotomy(a: string, b: string)
    ensures LexLt(a, b) || a == b || LexLt(b, a)
    ensures !(LexLt(a, b) && LexLt(b, a))
    ensures LexLt(a, b) ==> a != b
    decreases |a|
  {
    if |a| > 0 && |b| > 0 && a[0] == b[0] {
      LexLtTrichotomy(a[1..], b[1..]);
      if a[1..] == b[1..] {
        assert a == [a[0]] + a[1..] && b == [b[0]] + b[1..];
      }
    }
    if LexLt(a, b) && a == b {
      LexLtIrreflexive(a);
    }
  }

  /** `<=` on `str` is a total order. */
  lemma LexLeTotalOrder(a: string, b: string, c: string)
    ensures LexLe(a, a)
    ensures LexLe(a, b) && LexLe(b, a) ==> a == b
    ensures LexLe(a, b) && LexLe(b, c) ==> LexLe(a, c)
    ensures LexLe(a, b) || LexLe(b, a)
  {
    LexLtTrichotomy(a, b);
    if LexLt(a, b) && LexLt(b, c) {
      LexLtTransitive(a, b, c);
    }
  }

  // ---------------------------------------------------------------------
  // Paths
  // ---------------------------------------------------------------------

  /** `os.curdir` on POSIX. */
  const CurDir: string := "."

  /** `os.path.join(a, b)` on POSIX: an absolute `b` replaces `a`; otherwise
      `b` is appended, with a `/` in between unless `a` is empty or already
      ends with one. */
  function JoinPath(a: string, b: string): string
  {
    if |b| > 0 && b[0] == '/' then b
    else if a == "" || a[|a| - 1] == '/' then a + b
    else a + "/" + b
  }

  /** The joined path always ends with `b`, and an absolute `b` is the
      whole result. Otherwise the result is `a`, then a single `/` unless
      `a` is empty or already ends with one, then `b`. */
  lemma JoinPathParts(a: string, b: string)
    ensures var p := JoinPath(a, b);
      && |p| >= |b| && p[|p| - |b|..] == b
      && (|b| > 0 && b[0] == '/' ==> p == b)
      && (!(|b| > 0 && b[0] == '/') ==> |p| >= |a| && p[..|a|] == a)
      && (!(|b| > 0 && b[0] == '/') ==>
            var sep := if a == "" || a[|a| - 1] == '/' then 0 else 1;
            |p| == |a| + sep + |b| && (sep == 1 ==> p[|a|] == '/'))
  {
  }

  /** Index of the last `/` in `p`, or -1 when there is none. */
  function LastSlash(p: string): (i: int)
    ensures -1 <= i < |p|
    ensures 0 <= i ==> p[i] == '/'
    ensures forall j :: i < j < |p| ==> p[j] != '/'
  {
    if |p| == 0 then -1
    else if p[|p| - 1] == '/' then |p| - 1
    else LastSlash(p[..|p| - 1])
  }

  /** `os.path.basename(p)` on POSIX: what follows the last `/`. */
  function BaseName(p: string): string
  {
    p[LastSlash(p) + 1..]
  }

  /** Joining a directory and a relative file name keeps the file name as
      the last path component, whatever the directory looks like. */
  lemma JoinPathBaseName(dir: string, name: string)
    requires '/' !in name
    ensures BaseName(JoinPath(dir, name)) == name
  {
    var r := JoinPath(dir, name);
    var cut := |r| - |name|;
    assert r[cut..] == name;
    assert forall j :: cut <= j < |r| ==> r[j] == name[j - cut];
    if cut == 0 {
      assert LastSlash(r) == -1;
    } else {
      assert r[cut - 1] == '/';
      assert LastSlash(r) == cut - 1;
    }
  }

  // ---------------------------------------------------------------------
  // Lines
  // ---------------------------------------------------------------------

  /** `"\n".join(lines)`: the lines with one newline between each two. */
  function JoinLines(lines: seq<string>): string
  {
    if |lines| == 0 then ""
    else if |lines| == 1 then lines[0]
    else lines[0] + "\n" + JoinLines(lines[1..])
  }

  // ---------------------------------------------------------------------
  // str.format
  // ---------------------------------------------------------------------

  /** Why `str.format` raises. */
  datatype FormatError =
    | SingleOpenBrace   // ValueError: a `{` at the end of the template
    | SingleCloseBrace  // ValueError: a `}` not followed by another `}`
    | FieldNotModelled  // a named, numbered or formatted field
    | IndexOutOfRange   // IndexError: more `{}` fields than arguments

  function Prepend(s: string, r: Result<string, FormatError>): Result<string, FormatError>
  {
    match r
    case Ok(t) => Ok(s + t)
    case Err(e) => Err(e)
  }

  /** `t.format(*args)` for templates whose fields are all `{}`: the template
      is read left to right, `{{` and `}}` stand for one brace, and the n-th
      `{}` is replaced by the n-th argument. Surplus arguments are ignored. */
  function Format(t: string, args: seq<string>): Result<string, FormatError>
    decreases |t|
  {
    if |t| == 0 then Ok("")
    else if t[0] == '{' then
      if |t| == 1 then Err(SingleOpenBrace)
      else if t[1] == '{' then Prepend("{", Format(t[2..], args))
      else if t[1] == '}' then
        if |args| == 0 then Err(IndexOutOfRange)
        else Prepend(args[0], Format(t[2..], args[1..]))
      else Err(FieldNotModelled)
    else if t[0] == '}' then
      if |t| >= 2 && t[1] == '}' then Prepend("}", Format(t[2..], args))
      else Err(SingleCloseBrace)
    else Prepend([t[0]], Format(t[1..], args))
  }

  /** The template text that `str.format` renders as `s`: every brace doubled. */
  function Escape(s: string): string
  {
    if |s| == 0 then ""
    else if s[0] == '{' then "{{" + Escape(s[1..])
    else if s[0] == '}' then "}}" + Escape(s[1..])
    else [s[0]] + Escape(s[1..])
  }

  /** `s` holds no brace. */
  predicate Plain(s: string)
  {
    forall i :: 0 <= i < |s| ==> s[i] != '{' && s[i] != '}'
  }

  /** A template without braces formats to itself, whatever the arguments. */
  lemma {:induction false} FormatPlain(t: string, args: seq<string>)
    requires Plain(t)
    ensures Format(t, args) == Ok(t)
    decreases |t|
  {
    if |t| > 0 {
      assert Plain(t[1..]) by {
        forall i | 0 <= i < |t[1..]| ensures t[1..][i] != '{' && t[1..][i] != '}' {
          assert t[1..][i] == t[i + 1];
        }
      }
      FormatPlain(t[1..], args);
      assert t == [t[0]] + t[1..];
    }
  }

  lemma {:induction false} EscapeConcat(a: string, b: string)
    ensures Escape(a + b) == Escape(a) + Escape(b)
    decreases |a|
  {
    if |a| > 0 {
      var ab := a + b;
      assert ab[0] == a[0] && ab[1..] == a[1..] + b;
      EscapeConcat(a[1..], b);
      var head := if a[0] == '{' then "{{" else if a[0] == '}' then "}}" else [a[0]];
      calc {
        Escape(ab);
        head + Escape(a[1..] + b);
        head + (Escape(a[1..]) + Escape(b));
        (head + Escape(a[1..])) + Escape(b);
        Escape(a) + Escape(b);
      }
    } else {
      assert a + b == b;
    }
  }

  /** A template without braces renders as itself. */
  lemma {:induction false} EscapePlain(s: string)
    requires Plain(s)
    ensures Escape(s) == s
    decreases |s|
  {
    if |s| > 0 {
      EscapePlain(s[1..]);
    }
  }

  /** An escaped prefix renders back to the original text and uses no
      argument; formatting goes on with the rest of the template. */
  lemma PrependTwice(a: string, b: string, r: Result<string, FormatError>)
    ensures Prepend(a, Prepend(b, r)) == Prepend(a + b, r)
  {
    if r.Ok? {
      assert a + (b + r.value) == (a + b) + r.value;
    }
  }

  /** One step of `Format` over a character that is not a brace. */
  lemma FormatPlainStep(c: char, rest: string, args: seq<string>)
    requires c != '{' && c != '}'
    ensures Format([c] + rest, args) == Prepend([c], Format(rest, args))
  {
    assert ([c] + rest)[1..] == rest;
  }

  /** One step of `Format` over a doubled brace. */
  lemma FormatBraceStep(c: char, rest: string, args: seq<string>)
    requires c == '{' || c == '}'
    ensures Format([c, c] + rest, args) == Prepend([c], Format(rest, args))
  {
    assert ([c, c] + rest)[2..] == rest;
  }

  lemma PrependEmpty(r: Result<string, FormatError>)
    ensures Prepend("", r) == r
  {
    if r.Ok? {
      assert "" + r.value == r.value;
    }
  }

  lemma {:induction false} FormatEscapedPrefix(s: string, t: string, args: seq<string>)
    ensures Format(Escape(s) + t, args) == Prepend(s, Format(t, args))
    decreases |s|
  {
    if |s| == 0 {
      assert Escape(s) + t == t;
      PrependEmpty(Format(t, args));
    } else {
      var c := s[0];
      var rest := Escape(s[1..]) + t;
      FormatEscapedPrefix(s[1..], t, args);
      if c == '{' || c == '}' {
        assert Escape(s) == [c, c] + Escape(s[1..]);
        assert Escape(s) + t == [c, c] + rest;
        FormatBraceStep(c, rest, args);
      } else {
        assert Escape(s) == [c] + Escape(s[1..]);
        assert Escape(s) + t == [c] + rest;
        FormatPlainStep(c, rest, args);
      }
      PrependTwice([c], s[1..], Format(t, args));
      assert [c] + s[1..] == s;
    }
  }

  /** Escaping is the inverse of formatting without fields. */
  lemma EscapeRoundTrip(s: string, args: seq<string>)
    ensures Format(Escape(s), args) == Ok(s)
  {
    FormatEscapedPrefix(s, "", args);
    assert Escape(s) + "" == Escape(s);
    assert s + "" == s;
  }

  /** A `{}` field takes the next argument verbatim: braces inside the
      argument are not interpreted. */
  lemma FormatField(x: string, t: string, args: seq<string>)
    ensures Format("{}" + t, [x] + args) == Prepend(x, Format(t, args))
  {
    assert ("{}" + t)[2..] == t;
    assert ([x] + args)[1..] == args;
  }

  /** A `{}` field with no argument left raises IndexError. */
  lemma FormatMissingArgument(a: string, t: string)
    ensures Format(Escape(a) + "{}" + t, []).Err?
    ensures Format(Escape(a) + "{}" + t, []).error == IndexOutOfRange
  {
    FormatEscapedPrefix(a, "{}" + t, []);
    assert Escape(a) + "{}" + t == Escape(a) + ("{}" + t);
  }

  /** An escaped text and a `{}` field render as the text and the next
      argument; formatting goes on with the rest of the template. */
  lemma FormatFieldAfter(a: string, x: string, t: string, args: seq<string>)
    ensures Format(Escape(a) + "{}" + t, [x] + args) == Prepend(a + x, Format(t, args))
  {
    assert Escape(a) + "{}" + t == Escape(a) + ("{}" + t);
    FormatEscapedPrefix(a, "{}" + t, [x] + args);
    FormatField(x, t, args);
    PrependTwice(a, x, Format(t, args));
  }

  /** One `{}` field between two escaped texts. */
  lemma FormatOneField(a: string, x: string, b: string)
    ensures Format(Escape(a) + "{}" + Escape(b), [x]) == Ok(a + x + b)
  {
    FormatFieldAfter(a, x, Escape(b), []);
    assert [x] + [] == [x];
    EscapeRoundTrip(b, []);
  }

  /** Two `{}` fields around a text without braces: the arguments go on
      either side of the text. */
  lemma FormatAround(x: string, text: string, y: string)
    requires Plain(text)
    ensures Format("{}" + text + "{}", [x, y]) == Ok(x + text + y)
  {
    EscapePlain(text);
    assert Escape("") == "";
    assert Escape("") + "{}" + Escape(text) + "{}" + Escape("") == "{}" + text + "{}";
    FormatTwoFields("", x, text, y, "");
    assert "" + x + text + y + "" == x + text + y;
  }

  /** Two `{}` fields, filled in order. */
  lemma FormatTwoFields(a: string, x: string, b: string, y: string, c: string)
    ensures Format(Escape(a) + "{}" + Escape(b) + "{}" + Escape(c), [x, y]) == Ok(a + x + b + y + c)
  {
    var tail := Escape(b) + "{}" + Escape(c);
    assert Escape(a) + "{}" + Escape(b) + "{}" + Escape(c) == Escape(a) + "{}" + tail;
    assert [x, y] == [x] + [y];
    FormatFieldAfter(a, x, tail, [y]);
    FormatOneField(b, y, c);
    assert a + x + (b + y + c) == a + x + b + y + c;
  }
}
