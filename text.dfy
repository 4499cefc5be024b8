/** The string operations of Python and JavaScript that the application relies
    on: `strip`/`trim`, `split`, `join`, ASCII `lower`, decimal rendering of
    integers, and substring tests. */
module Text {

  /** Python's `str.isspace`, which decides what `str.strip()` removes. */
  predicate IsPySpace(c: char) {
    ('\t' <= c <= '\r') || ('\U{1C}' <= c <= '\U{1F}') || c == ' ' || c == '\U{85}' || c == '\U{A0}'
    || c == '\U{1680}' || ('\U{2000}' <= c <= '\U{200A}') || c == '\U{2028}' || c == '\U{2029}'
    || c == '\U{202F}' || c == '\U{205F}' || c == '\U{3000}'
  }

  /** The white space and line terminators that JavaScript's `String.prototype.trim` removes. */
  predicate IsJsSpace(c: char) {
    ('\t' <= c <= '\r') || c == ' ' || c == '\U{A0}' || c == '\U{1680}' || ('\U{2000}' <= c <= '\U{200A}')
    || c == '\U{2028}' || c == '\U{2029}' || c == '\U{202F}' || c == '\U{205F}' || c == '\U{3000}'
    || c == '\U{FEFF}'
  }

  /** `s` without its leading white space. */
  function TrimStart(s: string, ws: char -> bool): string
    decreases |s|
  {
    if s != [] && ws(s[0]) then TrimStart(s[1..], ws) else s
  }

  /** `s` without its trailing white space. */
  function TrimEnd(s: string, ws: char -> bool): string
    decreases |s|
  {
    if s != [] && ws(s[|s| - 1]) then TrimEnd(s[..|s| - 1], ws) else s
  }

  /** TrimStart removes a prefix made of white space, and no more. */
  lemma {:induction false} TrimStartSpec(s: string, ws: char -> bool)
    ensures var r := TrimStart(s, ws);
      |r| <= |s| && r == s[|s| - |r|..]
      && (forall k | 0 <= k < |s| - |r| :: ws(s[k]))
      && (r == [] || !ws(r[0]))
    decreases |s|
  {
    if s != [] && ws(s[0]) {
      TrimStartSpec(s[1..], ws);
      var r := TrimStart(s, ws);
      assert s[1..][|s| - 1 - |r|..] == s[|s| - |r|..];
      forall k | 0 <= k < |s| - |r| ensures ws(s[k]) {
        if k > 0 {
          assert s[k] == s[1..][k - 1];
        }
      }
    }
  }

  /** TrimEnd removes a suffix made of white space, and no more. */
  lemma {:induction false} TrimEndSpec(s: string, ws: char -> bool)
    ensures var r := TrimEnd(s, ws);
      |r| <= |s| && r == s[..|r|]
      && (forall k | |r| <= k < |s| :: ws(s[k]))
      && (r == [] || !ws(r[|r| - 1]))
    decreases |s|
  {
    if s != [] && ws(s[|s| - 1]) {
      var p := s[..|s| - 1];
      TrimEndSpec(p, ws);
      var r := TrimEnd(s, ws);
      assert p[..|r|] == s[..|r|];
      forall k | |r| <= k < |s| ensures ws(s[k]) {
        if k < |s| - 1 {
          assert s[k] == p[k];
        }
      }
    }
  }

  /** `s.strip()` with `ws` as the notion of white space. */
  function Strip(s: string, ws: char -> bool): string {
    TrimEnd(TrimStart(s, ws), ws)
  }

  /** Strip removes exactly the white space at both ends: the result is an
      infix of `s` that neither starts nor ends with white space, empty exactly
      when `s` is all white space, and `s` itself when `s` has no white space
      at its ends. */
  lemma StripSpec(s: string, ws: char -> bool)
    ensures var r := Strip(s, ws);
      |r| <= |s|
      && (forall k | 0 <= k < |r| :: r[k] in s)
      && (r == [] <==> forall k | 0 <= k < |s| :: ws(s[k]))
      && (r == [] || (!ws(r[0]) && !ws(r[|r| - 1])))
      && ((s == [] || (!ws(s[0]) && !ws(s[|s| - 1]))) ==> r == s)
  {
    var t := TrimStart(s, ws);
    var r := Strip(s, ws);
    TrimStartSpec(s, ws);
    TrimEndSpec(t, ws);
    if r != [] {
      assert r[0] == t[0];
    }
    StripInfix(s, ws, t, r);
    StripEmpty(s, ws, t, r);
  }

  lemma StripInfix(s: string, ws: char -> bool, t: string, r: string)
    requires t == TrimStart(s, ws) && r == TrimEnd(t, ws)
    ensures forall k | 0 <= k < |r| :: r[k] in s
  {
    TrimStartSpec(s, ws);
    TrimEndSpec(t, ws);
    var d := |s| - |t|;
    forall k | 0 <= k < |r| ensures r[k] in s {
      assert r[k] == t[k] == s[d + k];
    }
  }

  lemma StripEmpty(s: string, ws: char -> bool, t: string, r: string)
    requires t == TrimStart(s, ws) && r == TrimEnd(t, ws)
    ensures r == [] <==> forall k | 0 <= k < |s| :: ws(s[k])
  {
    TrimStartSpec(s, ws);
    TrimEndSpec(t, ws);
    var d := |s| - |t|;
    if r == [] {
      assert t == [];
    } else {
      assert !ws(s[d]) by {
        assert t[0] == s[d];
      }
    }
  }

  /** Python's `str.strip()`. */
  function PyStrip(s: string): string {
    Strip(s, IsPySpace)
  }

  /** JavaScript's `String.prototype.trim()`. */
  function JsTrim(s: string): string {
    Strip(s, IsJsSpace)
  }

  /** Python's `not s.strip()`: the text is empty or white space only. */
  predicate IsBlank(s: string) {
    PyStrip(s) == []
  }

  function Count(s: string, c: char): nat
    decreases |s|
  {
    if s == [] then 0 else (if s[0] == c then 1 else 0) + Count(s[1..], c)
  }

  lemma {:induction false} CountZero(s: string, c: char)
    ensures Count(s, c) == 0 <==> c !in s
    decreases |s|
  {
    if s != [] {
      CountZero(s[1..], c);
      assert s == [s[0]] + s[1..];
    }
  }

  /** Python's `sep.join(parts)` and JavaScript's `parts.join(sep)`. */
  function Join(parts: seq<string>, sep: string): string
    decreases |parts|
  {
    if |parts| == 0 then "" else if |parts| == 1 then parts[0] else parts[0] + sep + Join(parts[1..], sep)
  }

  /** Python's `s.split(sep)` and JavaScript's `s.split(sep)` for a one-character
      separator: every occurrence separates, so there is one piece more than
      there are separators, and empty pieces are kept. */
  function Split(s: string, sep: char): (r: seq<string>)
    ensures |r| == Count(s, sep) + 1
    ensures forall k | 0 <= k < |r| :: sep !in r[k]
    decreases |s|
  {
    if s == [] then [""]
    else
      var rest := Split(s[1..], sep);
      if s[0] == sep then [""] + rest else [[s[0]] + rest[0]] + rest[1..]
  }

  /** Splitting loses nothing: joining the pieces with the separator gives the text back. */
  lemma {:induction false} SplitJoin(s: string, sep: char)
    ensures Join(Split(s, sep), [sep]) == s
    decreases |s|
  {
    if s != [] {
      SplitJoin(s[1..], sep);
      var rest := Split(s[1..], sep);
      if s[0] == sep {
        assert ([""] + rest)[1..] == rest;
        assert s == [sep] + s[1..];
      } else {
        var r := [[s[0]] + rest[0]] + rest[1..];
        assert r[1..] == rest[1..];
        if |rest| == 1 {
          assert s == [s[0]] + s[1..];
        } else {
          assert s == [s[0]] + s[1..];
          assert Join(rest, [sep]) == rest[0] + [sep] + Join(rest[1..], [sep]);
        }
      }
    }
  }

  lemma {:induction false} SplitAfterFreePrefix(p: string, t: string, sep: char)
    requires sep !in p
    ensures Split(p + t, sep) == [p + Split(t, sep)[0]] + Split(t, sep)[1..]
    decreases |p|
  {
    var u := Split(t, sep);
    if p == [] {
      assert p + t == t;
      assert p + u[0] == u[0];
      assert u == [u[0]] + u[1..];
    } else {
      assert (p + t)[1..] == p[1..] + t;
      SplitAfterFreePrefix(p[1..], t, sep);
      var rest := Split(p[1..] + t, sep);
      assert rest == [p[1..] + u[0]] + u[1..];
      assert rest[1..] == u[1..];
      assert [p[0]] + rest[0] == p + u[0];
    }
  }

  /** Joining separator-free pieces and splitting again gives the pieces back. */
  lemma {:induction false} JoinSplit(parts: seq<string>, sep: char)
    requires |parts| >= 1
    requires forall k | 0 <= k < |parts| :: sep !in parts[k]
    ensures Split(Join(parts, [sep]), sep) == parts
    decreases |parts|
  {
    if |parts| == 1 {
      SplitAfterFreePrefix(parts[0], "", sep);
      assert parts[0] + "" == parts[0];
      assert Split("", sep) == [""];
    } else {
      var u := Join(parts[1..], [sep]);
      JoinSplit(parts[1..], sep);
      assert Join(parts, [sep]) == parts[0] + [sep] + u;
      assert Join(parts, [sep]) == parts[0] + ([sep] + u);
      SplitAfterFreePrefix(parts[0], [sep] + u, sep);
      assert ([sep] + u)[1..] == u;
      var v := Split([sep] + u, sep);
      assert v == [""] + parts[1..];
      assert v[0] == "" && v[1..] == parts[1..];
      assert parts[0] + v[0] == parts[0];
      assert parts == [parts[0]] + parts[1..];
    }
  }

  /** A suffix of `s` that holds no `sep` and is either all of `s` or comes
      right after a `sep`: the text after the last separator. */
  predicate IsLastSegment(s: string, sep: char, r: string) {
    |r| <= |s| && r == s[|s| - |r|..] && sep !in r && (|r| < |s| ==> s[|s| - |r| - 1] == sep)
  }

  lemma LastSegmentUnique(s: string, sep: char, r1: string, r2: string)
    requires IsLastSegment(s, sep, r1) && IsLastSegment(s, sep, r2)
    ensures r1 == r2
  {
  }

  /** A last segment of the tail is one of the whole text when it is
      shorter than the tail, or when the text starts with the separator. */
  lemma LastSegmentCons(s: string, sep: char, r: string)
    requires s != [] && IsLastSegment(s[1..], sep, r)
    requires |r| < |s| - 1 || s[0] == sep
    ensures IsLastSegment(s, sep, r)
  {
    var t := s[1..];
    assert t[|t| - |r|..] == s[|s| - |r|..];
    if |r| < |t| {
      assert s[|s| - |r| - 1] == t[|t| - |r| - 1];
    } else {
      assert |s| - |r| - 1 == 0;
    }
  }

  lemma {:induction false} SplitLast(s: string, sep: char)
    ensures IsLastSegment(s, sep, Split(s, sep)[|Split(s, sep)| - 1])
    decreases |s|
  {
    if s != [] {
      var t := s[1..];
      SplitLast(t, sep);
      var rest := Split(t, sep);
      var r := rest[|rest| - 1];
      if s[0] == sep {
        LastSegmentCons(s, sep, r);
      } else {
        CountZero(t, sep);
        if |rest| == 1 {
          assert r == t;
          assert s == [s[0]] + t;
        } else {
          assert sep in t;
          LastSegmentCons(s, sep, r);
        }
      }
    }
  }

  /** `s.split(sep)[-1]` in Python, `s.split(sep).pop()` in JavaScript. */
  function LastSegment(s: string, sep: char): (r: string)
    ensures IsLastSegment(s, sep, r)
  {
    SplitLast(s, sep);
    Split(s, sep)[|Split(s, sep)| - 1]
  }

  /** Lower-casing of ASCII letters; other characters are kept. */
  function AsciiLower(c: char): char {
    if 'A' <= c <= 'Z' then (c as int + 32) as char else c
  }

  function Lower(s: string): (r: string)
    ensures |r| == |s| && forall k | 0 <= k < |s| :: r[k] == AsciiLower(s[k])
  {
    seq(|s|, k requires 0 <= k < |s| => AsciiLower(s[k]))
  }

  /** Lower-casing and taking the text after the last '.' commute, so
      "lower, then split" (the server) and "split, then lower" (the browser)
      give the same extension. */
  lemma LowerLastSegment(s: string)
    ensures LastSegment(Lower(s), '.') == Lower(LastSegment(s, '.'))
  {
    var r := LastSegment(s, '.');
    var lr := Lower(r);
    var ls := Lower(s);
    assert lr == ls[|ls| - |lr|..];
    assert '.' !in lr by {
      forall k | 0 <= k < |lr| ensures lr[k] != '.' {
        assert r[k] != '.';
      }
    }
    assert IsLastSegment(ls, '.', lr);
    LastSegmentUnique(ls, '.', lr, LastSegment(ls, '.'));
  }

  predicate IsDigit(c: char) {
    '0' <= c <= '9'
  }

  predicate AllDigits(s: string) {
    forall k | 0 <= k < |s| :: IsDigit(s[k])
  }

  function DigitChar(d: nat): (c: char)
    requires d < 10
    ensures IsDigit(c)
  {
    ('0' as int + d) as char
  }

  function DigitValue(c: char): (d: nat)
    requires IsDigit(c)
    ensures d < 10
  {
    c as int - '0' as int
  }

  /** Python's `str(n)` for `n >= 0`. */
  function NatToString(n: nat): (r: string)
    ensures r != [] && AllDigits(r)
    decreases n
  {
    if n < 10 then [DigitChar(n)] else NatToString(n / 10) + [DigitChar(n % 10)]
  }

  /** The value of a string of decimal digits (`int(s)` for such strings). */
  function ParseDigits(s: string): nat
    requires AllDigits(s)
    decreases |s|
  {
    if s == [] then 0 else ParseDigits(s[..|s| - 1]) * 10 + DigitValue(s[|s| - 1])
  }

  lemma ParseDigitsSnoc(s: string, c: char)
    requires AllDigits(s) && IsDigit(c)
    ensures AllDigits(s + [c]) && ParseDigits(s + [c]) == ParseDigits(s) * 10 + DigitValue(c)
  {
    assert (s + [c])[..|s|] == s;
  }

  /** Rendering a natural number in decimal and reading it back gives the number. */
  lemma {:induction false} ParseNatToString(n: nat)
    ensures ParseDigits(NatToString(n)) == n
    decreases n
  {
    if n >= 10 {
      ParseNatToString(n / 10);
      ParseDigitsSnoc(NatToString(n / 10), DigitChar(n % 10));
    }
  }

  predicate StartsWith(s: string, p: string) {
    |p| <= |s| && s[..|p|] == p
  }

  /** Python's `p in s` for strings. */
  predicate HasInfix(s: string, p: string) {
    exists i | 0 <= i <= |s| :: StartsWith(s[i..], p)
  }
}
