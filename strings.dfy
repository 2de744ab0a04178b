/** The Python string built-ins the modelled code relies on (`split`, `join`,
    `strip`, `rstrip`, `lower`, `find`, `replace`, `isdigit`, `int()` and
    `str()` of an integer), over `seq<char>` and ASCII only. */
module Strings {
  import opened Wrappers

  /** `s.split(sep)` for a one-character separator: never empty, and
      `"".split(".") == [""]`. */
  function Split(s: string, sep: char): (r: seq<string>)
    ensures |r| >= 1
    ensures forall i :: 0 <= i < |r| ==> sep !in r[i]
  {
    if |s| == 0 then [""]
    else
      var rest := Split(s[1..], sep);
      if s[0] == sep then [""] + rest
      else [[s[0]] + rest[0]] + rest[1..]
  }

  /** A character absent from `s` is absent from every piece of its split. */
  lemma {:induction false} SplitPiecesAvoid(s: string, sep: char, c: char)
    requires c !in s
    ensures forall i :: 0 <= i < |Split(s, sep)| ==> c !in Split(s, sep)[i]
  {
    if |s| > 0 {
      assert c !in s[1..];
      SplitPiecesAvoid(s[1..], sep, c);
    }
  }

  /** `sep.join(parts)`. */
  function Join(parts: seq<string>, sep: string): string
  {
    if |parts| == 0 then ""
    else if |parts| == 1 then parts[0]
    else parts[0] + sep + Join(parts[1..], sep)
  }

  function Reverse<T>(s: seq<T>): (r: seq<T>)
    ensures |r| == |s|
  {
    if |s| == 0 then [] else Reverse(s[1..]) + [s[0]]
  }

  lemma {:induction false} ReverseAt<T>(s: seq<T>, k: nat)
    requires k < |s|
    ensures Reverse(s)[k] == s[|s| - 1 - k]
  {
    if k < |s| - 1 {
      ReverseAt(s[1..], k);
    }
  }

  lemma ReverseReverse<T>(s: seq<T>)
    ensures Reverse(Reverse(s)) == s
  {
    forall k | 0 <= k < |s| ensures Reverse(Reverse(s))[k] == s[k] {
      ReverseAt(Reverse(s), k);
      ReverseAt(s, |s| - 1 - k);
    }
  }

  /** Splitting and re-joining with the same separator gives the input back. */
  lemma {:induction false} JoinSplit(s: string, sep: char)
    ensures Join(Split(s, sep), [sep]) == s
  {
    if |s| > 0 {
      var rest := Split(s[1..], sep);
      JoinSplit(s[1..], sep);
      if s[0] == sep {
        assert Split(s, sep) == [""] + rest;
        assert ([""] + rest)[1..] == rest;
      } else {
        var r := Split(s, sep);
        assert r == [[s[0]] + rest[0]] + rest[1..];
        if |rest| == 1 {
          assert Join(r, [sep]) == [s[0]] + rest[0];
        } else {
          assert r[1..] == rest[1..];
          assert Join(rest, [sep]) == rest[0] + [sep] + Join(rest[1..], [sep]);
          assert Join(r, [sep]) == [s[0]] + rest[0] + [sep] + Join(rest[1..], [sep]);
        }
      }
    }
  }

  lemma {:induction false} SplitAfterPiece(a: string, sep: char, b: string)
    requires sep !in a
    ensures Split(a + [sep] + b, sep) == [a] + Split(b, sep)
  {
    if |a| == 0 {
      assert a + [sep] + b == [sep] + b;
      assert ([sep] + b)[1..] == b;
    } else {
      assert (a + [sep] + b)[1..] == a[1..] + [sep] + b;
      SplitAfterPiece(a[1..], sep, b);
      assert [a[0]] + a[1..] == a;
    }
  }

  lemma {:induction false} SplitNoSep(a: string, sep: char)
    requires sep !in a
    ensures Split(a, sep) == [a]
  {
    if |a| > 0 {
      SplitNoSep(a[1..], sep);
      assert [a[0]] + a[1..] == a;
    }
  }

  /** Joining pieces that do not contain the separator and splitting again
      gives the pieces back. */
  lemma {:induction false} SplitJoin(parts: seq<string>, sep: char)
    requires |parts| >= 1
    requires forall i :: 0 <= i < |parts| ==> sep !in parts[i]
    ensures Split(Join(parts, [sep]), sep) == parts
  {
    if |parts| == 1 {
      SplitNoSep(parts[0], sep);
    } else {
      SplitJoin(parts[1..], sep);
      SplitAfterPiece(parts[0], sep, Join(parts[1..], [sep]));
    }
  }

  predicate StartsWith(s: string, prefix: string)
  {
    |prefix| <= |s| && s[..|prefix|] == prefix
  }

  predicate EndsWith(s: string, suffix: string)
  {
    |suffix| <= |s| && s[|s| - |suffix|..] == suffix
  }

  /** `s.rstrip(chars)`: drops every trailing character that is in `chars`. */
  function RStrip(s: string, chars: set<char>): (r: string)
    ensures |r| <= |s| && r == s[..|r|]
    ensures |r| > 0 ==> r[|r| - 1] !in chars
    ensures forall i :: |r| <= i < |s| ==> s[i] in chars
  {
    if |s| == 0 || s[|s| - 1] !in chars then s
    else RStrip(s[..|s| - 1], chars)
  }

  /** `rstrip` never reaches past a character it keeps. */
  lemma {:induction false} RStripAfter(p: string, q: string, chars: set<char>)
    requires |p| > 0 && p[|p| - 1] !in chars
    ensures RStrip(p + q, chars) == p + RStrip(q, chars)
    decreases |q|
  {
    if |q| == 0 {
      assert p + q == p;
    } else {
      assert (p + q)[|p + q| - 1] == q[|q| - 1];
      assert (p + q)[..|p + q| - 1] == p + q[..|q| - 1];
      if q[|q| - 1] in chars {
        RStripAfter(p, q[..|q| - 1], chars);
      }
    }
  }

  /** `s.lstrip(chars)`. */
  function LStrip(s: string, chars: set<char>): (r: string)
    ensures |r| <= |s| && r == s[|s| - |r|..]
    ensures |r| > 0 ==> r[0] !in chars
    ensures forall i :: 0 <= i < |s| - |r| ==> s[i] in chars
  {
    if |s| == 0 || s[0] !in chars then s
    else LStrip(s[1..], chars)
  }

  /** `s.strip(chars)`. */
  function Strip(s: string, chars: set<char>): string
  {
    LStrip(RStrip(s, chars), chars)
  }

  /** Python's ASCII whitespace, as `str.strip()` and `int()` see it. */
  const Whitespace: set<char> := {' ', '\t', '\n', '\r', '\U{B}', '\U{C}'}

  function LowerChar(c: char): char
  {
    if 'A' <= c <= 'Z' then (c as int + 32) as char else c
  }

  /** `s.lower()` on ASCII text. */
  function Lower(s: string): (r: string)
    ensures |r| == |s|
    ensures forall i :: 0 <= i < |s| ==> r[i] == LowerChar(s[i])
  {
    if |s| == 0 then "" else [LowerChar(s[0])] + Lower(s[1..])
  }

  predicate IsSubstringAt(s: string, sub: string, i: nat)
  {
    i + |sub| <= |s| && s[i..i + |sub|] == sub
  }

  /** `s.find(sub)`: the first index at which `sub` occurs, or -1. */
  function Find(s: string, sub: string): (r: int)
    ensures -1 <= r <= |s|
    ensures r >= 0 ==> IsSubstringAt(s, sub, r)
    ensures r >= 0 ==> forall j :: 0 <= j < r ==> !IsSubstringAt(s, sub, j)
    ensures r == -1 <==> forall j :: 0 <= j <= |s| ==> !IsSubstringAt(s, sub, j)
  {
    FindFrom(s, sub, 0)
  }

  /** The search of `Find` from index `i` on. */
  function FindFrom(s: string, sub: string, i: nat): (r: int)
    requires i <= |s| + 1
    ensures r == -1 || i <= r <= |s|
    ensures r >= 0 ==> IsSubstringAt(s, sub, r)
    ensures forall j :: i <= j <= |s| && (r == -1 || j < r) ==> !IsSubstringAt(s, sub, j)
    decreases |s| + 1 - i
  {
    if i > |s| then -1
    else if IsSubstringAt(s, sub, i) then i
    else FindFrom(s, sub, i + 1)
  }

  /** `s[:k]`: a negative `k` counts from the end. */
  function SliceTo(s: string, k: int): (r: string)
    ensures 0 <= k <= |s| ==> r == s[..k]
    ensures k < 0 ==> r == s[..if |s| + k < 0 then 0 else |s| + k]
  {
    if k >= 0 then s[..if k <= |s| then k else |s|]
    else s[..if |s| + k < 0 then 0 else |s| + k]
  }

  /** `s.replace(pat, repl)` for a non-empty `pat`: left to right, without
      overlaps. */
  function ReplaceAll(s: string, pat: string, repl: string): string
    requires |pat| > 0
  {
    if |s| < |pat| then s
    else if s[..|pat|] == pat then repl + ReplaceAll(s[|pat|..], pat, repl)
    else [s[0]] + ReplaceAll(s[1..], pat, repl)
  }

  lemma {:induction false} ReplaceAllAbsent(s: string, pat: string, repl: string)
    requires |pat| > 0
    requires forall j :: 0 <= j <= |s| ==> !IsSubstringAt(s, pat, j)
    ensures ReplaceAll(s, pat, repl) == s
  {
    if |s| >= |pat| {
      assert !IsSubstringAt(s, pat, 0);
      forall j | 0 <= j <= |s| - 1 ensures !IsSubstringAt(s[1..], pat, j) {
        assert !IsSubstringAt(s, pat, j + 1);
        if j + |pat| <= |s| - 1 {
          assert s[1..][j..j + |pat|] == s[j + 1..j + 1 + |pat|];
        }
      }
      ReplaceAllAbsent(s[1..], pat, repl);
      assert [s[0]] + s[1..] == s;
    }
  }

  /** Text whose characters cannot start a match is copied unchanged. */
  lemma {:induction false} ReplaceAllSkip(a: string, b: string, pat: string, repl: string)
    requires |pat| > 0
    requires pat[0] !in a
    ensures ReplaceAll(a + b, pat, repl) == a + ReplaceAll(b, pat, repl)
  {
    var s := a + b;
    if |a| == 0 {
      assert s == b;
    } else if |s| >= |pat| {
      assert s[..|pat|][0] == a[0];
      assert s[..|pat|] != pat;
      assert s[1..] == a[1..] + b;
      ReplaceAllSkip(a[1..], b, pat, repl);
      assert ReplaceAll(s, pat, repl) == [a[0]] + ReplaceAll(a[1..] + b, pat, repl);
      assert [a[0]] + (a[1..] + ReplaceAll(b, pat, repl)) == a + ReplaceAll(b, pat, repl);
    } else {
      assert ReplaceAll(s, pat, repl) == s;
      assert ReplaceAll(b, pat, repl) == b;
    }
  }

  lemma ReplaceAllWhole(pat: string, repl: string)
    requires |pat| > 0
    ensures ReplaceAll(pat, pat, repl) == repl
  {
    assert pat[..|pat|] == pat;
    assert pat[|pat|..] == "";
  }

  predicate IsDigitChar(c: char)
  {
    '0' <= c <= '9'
  }

  /** `s.isdigit()` on ASCII text: non-empty and every character a digit. */
  predicate IsDigits(s: string)
  {
    |s| > 0 && forall i :: 0 <= i < |s| ==> IsDigitChar(s[i])
  }

  function DigitsValue(s: string): nat
    requires forall i :: 0 <= i < |s| ==> IsDigitChar(s[i])
  {
    if |s| == 0 then 0
    else
      assert IsDigitChar(s[|s| - 1]);
      DigitsValue(s[..|s| - 1]) * 10 + (s[|s| - 1] as int - '0' as int)
  }

  function DigitChar(d: nat): (c: char)
    requires d < 10
    ensures IsDigitChar(c) && c as int - '0' as int == d
  {
    ('0' as int + d) as char
  }

  /** `str(n)` for a natural number. */
  function NatToString(n: nat): (r: string)
    ensures IsDigits(r)
  {
    if n < 10 then [DigitChar(n)] else NatToString(n / 10) + [DigitChar(n % 10)]
  }

  /** Reading back a printed number gives the number. */
  lemma {:induction false} NatToStringValue(n: nat)
    ensures DigitsValue(NatToString(n)) == n
  {
    if n >= 10 {
      NatToStringValue(n / 10);
      var s := NatToString(n);
      assert s[..|s| - 1] == NatToString(n / 10);
    }
  }

  /** Python's `int(s)` on text: surrounding whitespace is ignored, one
      optional sign, then at least one ASCII digit; anything else raises
      (here `None`). */
  function PyInt(s: string): Option<int>
  {
    var t := Strip(s, Whitespace);
    if |t| > 0 && t[0] == '-' && IsDigits(t[1..]) then Some(0 - DigitsValue(t[1..]) as int)
    else if |t| > 0 && t[0] == '+' && IsDigits(t[1..]) then Some(DigitsValue(t[1..]))
    else if IsDigits(t) then Some(DigitsValue(t))
    else None
  }

  lemma PyIntOfDigits(s: string)
    requires IsDigits(s)
    ensures PyInt(s) == Some(DigitsValue(s))
  {
    assert s[|s| - 1] !in Whitespace by { assert IsDigitChar(s[|s| - 1]); }
    assert RStrip(s, Whitespace) == s;
    assert s[0] !in Whitespace by { assert IsDigitChar(s[0]); }
    assert LStrip(s, Whitespace) == s;
  }

  /** `template.format(**{key: value})` for a single keyword: "{{" and "}}"
      are escaped braces, "{key}" is replaced by `value`, and any other
      brace raises (here `None`). */
  function Format(template: string, key: string, value: string): Option<string>
  {
    if |template| == 0 then Some("")
    else if template[0] == '{' then
      if |template| >= 2 && template[1] == '{' then Prepend("{", Format(template[2..], key, value))
      else if StartsWith(template[1..], key + "}") then Prepend(value, Format(template[|key| + 2..], key, value))
      else None
    else if template[0] == '}' then
      if |template| >= 2 && template[1] == '}' then Prepend("}", Format(template[2..], key, value))
      else None
    else Prepend([template[0]], Format(template[1..], key, value))
  }

  function Prepend(prefix: string, rest: Option<string>): Option<string>
  {
    if rest.None? then None else Some(prefix + rest.value)
  }

  predicate NoBraces(s: string)
  {
    '{' !in s && '}' !in s
  }

  /** Text without braces formats to itself. */
  lemma {:induction false} FormatPlain(s: string, key: string, value: string)
    requires NoBraces(s)
    ensures Format(s, key, value) == Some(s)
  {
    if |s| > 0 {
      assert NoBraces(s[1..]);
      FormatPlain(s[1..], key, value);
      assert [s[0]] + s[1..] == s;
    }
  }

  /** Both formatted, joined; `None` when either raised. */
  function AppendOpt(x: Option<string>, y: Option<string>): Option<string>
  {
    if x.None? || y.None? then None else Some(x.value + y.value)
  }

  lemma PrependAppendOpt(p: string, x: Option<string>, y: Option<string>)
    ensures Prepend(p, AppendOpt(x, y)) == AppendOpt(Prepend(p, x), y)
  {
    if x.Some? && y.Some? {
      assert p + (x.value + y.value) == (p + x.value) + y.value;
    }
  }

  /** Formatting works piece by piece: once `a` formats, `a + b` formats
      iff `b` does, to the two results joined. */
  lemma {:induction false} FormatAppend(a: string, b: string, key: string, value: string)
    requires Format(a, key, value).Some?
    ensures Format(a + b, key, value) == AppendOpt(Format(a, key, value), Format(b, key, value))
  {
    var t := a + b;
    if |a| == 0 {
      assert t == b;
      if Format(b, key, value).Some? {
        assert "" + Format(b, key, value).value == Format(b, key, value).value;
      }
    } else if a[0] == '{' {
      if |a| >= 2 && a[1] == '{' {
        assert t[0] == '{' && t[1] == '{' && t[2..] == a[2..] + b;
        FormatAppend(a[2..], b, key, value);
        PrependAppendOpt("{", Format(a[2..], key, value), Format(b, key, value));
      } else {
        assert StartsWith(a[1..], key + "}");
        assert t[1..][..|key| + 1] == a[1..][..|key| + 1];
        assert t[|key| + 2..] == a[|key| + 2..] + b;
        FormatAppend(a[|key| + 2..], b, key, value);
        PrependAppendOpt(value, Format(a[|key| + 2..], key, value), Format(b, key, value));
      }
    } else if a[0] == '}' {
      assert |a| >= 2 && a[1] == '}';
      assert t[0] == '}' && t[1] == '}' && t[2..] == a[2..] + b;
      FormatAppend(a[2..], b, key, value);
      PrependAppendOpt("}", Format(a[2..], key, value), Format(b, key, value));
    } else {
      assert t[0] == a[0] && t[1..] == a[1..] + b;
      FormatAppend(a[1..], b, key, value);
      PrependAppendOpt([a[0]], Format(a[1..], key, value), Format(b, key, value));
    }
  }

  /** The two escapes. */
  lemma FormatEscapes(key: string, value: string)
    ensures Format("{{", key, value) == Some("{")
    ensures Format("}}", key, value) == Some("}")
  {
    var l, r := "{{", "}}";
    assert l[0] == '{' && l[1] == '{' && l[2..] == "";
    assert r[0] == '}' && r[1] == '}' && r[2..] == "";
    assert Format("", key, value) == Some("");
    assert "{" + "" == "{" && "}" + "" == "}";
  }
}
