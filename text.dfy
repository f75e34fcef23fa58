/**
 * The few Python string operations the charm relies on: `str.strip()`,
 * `str.split(sep)`, the substring test `sub in s`, truthiness of an optional
 * string and `'{}'.format(x)` of an optional string.
 */
module Text {
  import opened Host

  /** The ASCII characters Python's `str.isspace()` accepts (also what `\s` matches). */
  predicate IsSpace(c: char)
  {
    c == ' ' || c == '\t' || c == '\n' || c == '\r' || c == '\U{B}' || c == '\U{C}' ||
    ('\U{1C}' <= c <= '\U{1F}')
  }

  predicate AllSpace(s: string)
  {
    forall i :: 0 <= i < |s| ==> IsSpace(s[i])
  }

  /** Python's `s.lstrip()`. */
  function StripLeft(s: string): string
  {
    if s != [] && IsSpace(s[0]) then StripLeft(s[1..]) else s
  }

  /** Python's `s.rstrip()`. */
  function StripRight(s: string): string
  {
    if s != [] && IsSpace(s[|s| - 1]) then StripRight(s[..|s| - 1]) else s
  }

  /** `lstrip` removes a prefix made of white space and nothing more. */
  lemma {:induction false} StripLeftSpec(s: string)
    ensures var r := StripLeft(s);
      |r| <= |s| && r == s[|s| - |r|..] && AllSpace(s[..|s| - |r|]) && (r == [] || !IsSpace(r[0]))
  {
    if s != [] && IsSpace(s[0]) {
      StripLeftSpec(s[1..]);
      var r := StripLeft(s);
      assert s[..|s| - |r|] == [s[0]] + s[1..][..|s| - 1 - |r|];
    }
  }

  /** `rstrip` removes a suffix made of white space and nothing more. */
  lemma {:induction false} StripRightSpec(s: string)
    ensures var r := StripRight(s);
      |r| <= |s| && r == s[..|r|] && AllSpace(s[|r|..]) && (r == [] || !IsSpace(r[|r| - 1]))
  {
    if s != [] && IsSpace(s[|s| - 1]) {
      StripRightSpec(s[..|s| - 1]);
      var r := StripRight(s);
      assert s[|r|..] == s[..|s| - 1][|r|..] + [s[|s| - 1]];
    }
  }

  /** Python's `s.strip()`: leading and trailing white space removed. */
  function Strip(s: string): string
  {
    StripRight(StripLeft(s))
  }

  /** `s.strip()` is empty exactly when `s` is nothing but white space. */
  lemma StripEmptyIffBlank(s: string)
    ensures Strip(s) == [] <==> AllSpace(s)
  {
    var l := StripLeft(s);
    StripLeftSpec(s);
    StripRightSpec(l);
    if l != [] {
      assert !IsSpace(s[|s| - |l|]);
      assert l[..1] <= StripRight(l);
    } else {
      assert s[..|s|] == s;
    }
  }

  /** Python truthiness of an option value that may be unset: `None` and `''` are false. */
  predicate Truthy(o: Option<string>)
  {
    o.Some? && o.value != ""
  }

  /** Python's `'{}'.format(o)` for an option value that may be unset. */
  function PyStr(o: Option<string>): string
  {
    if o.None? then "None" else o.value
  }

  /** Python's substring test `sub in s`. */
  predicate Contains(s: string, sub: string)
  {
    exists i :: 0 <= i <= |s| && sub <= s[i..]
  }

  /** Index of the first `sep` in `s`. */
  function IndexOf(s: string, sep: char): (i: nat)
    requires sep in s
    ensures i < |s| && s[i] == sep && sep !in s[..i]
  {
    if s[0] == sep then 0 else 1 + IndexOf(s[1..], sep)
  }

  /** Python's `s.split(sep)` for a one-character separator. */
  function Split(s: string, sep: char): seq<string>
    decreases |s|
  {
    if sep in s then
      var i := IndexOf(s, sep);
      [s[..i]] + Split(s[i + 1..], sep)
    else [s]
  }

  /** `split` yields at least one part, and no part holds the separator. */
  lemma {:induction false} SplitSpec(s: string, sep: char)
    ensures var parts := Split(s, sep);
      |parts| >= 1 && forall k :: 0 <= k < |parts| ==> sep !in parts[k]
    decreases |s|
  {
    if sep in s {
      var i := IndexOf(s, sep);
      SplitSpec(s[i + 1..], sep);
      var parts := Split(s, sep);
      forall k | 1 <= k < |parts| ensures sep !in parts[k] {
        assert parts[k] == Split(s[i + 1..], sep)[k - 1];
      }
    }
  }

  /** Python's `sep.join(parts)`, the inverse of `Split`. */
  function Join(parts: seq<string>, sep: char): string
  {
    if parts == [] then []
    else if |parts| == 1 then parts[0]
    else parts[0] + [sep] + Join(parts[1..], sep)
  }

  lemma {:induction false} JoinSplit(s: string, sep: char)
    ensures Join(Split(s, sep), sep) == s
    decreases |s|
  {
    if sep in s {
      var i := IndexOf(s, sep);
      var rest := Split(s[i + 1..], sep);
      JoinSplit(s[i + 1..], sep);
      SplitSpec(s[i + 1..], sep);
      var parts := [s[..i]] + rest;
      assert parts[1..] == rest;
      assert Join(parts, sep) == s[..i] + [sep] + Join(rest, sep);
      assert s == s[..i] + [sep] + s[i + 1..];
    }
  }

  /** Python's `s.split('\n')[0]`: the text before the first line break. */
  function FirstLine(s: string): (line: string)
    ensures '\n' !in line
    ensures line <= s
    ensures |line| < |s| ==> s[|line|] == '\n'
  {
    var parts := Split(s, '\n');
    SplitSpec(s, '\n');
    assert parts[0] <= s && (|parts[0]| < |s| ==> s[|parts[0]|] == '\n') by {
      if '\n' in s {
        var i := IndexOf(s, '\n');
        assert parts[0] == s[..i];
      }
    }
    parts[0]
  }
}
