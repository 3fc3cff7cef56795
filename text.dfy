/**
 * Character classes and string operations that the backend (.NET) and the
 * client (JavaScript) use: case folding, substring search, the two
 * platforms' notions of white space, and `String.prototype.trim`.
 *
 * Case folding is ASCII-only: .NET's culture-sensitive `ToUpper`/`ToLower`
 * and JavaScript's `toLowerCase` also fold non-ASCII letters.
 */
module Text {
  import opened Common

  function LowerChar(c: char): char
  {
    if 'A' <= c <= 'Z' then (c as int + 32) as char else c
  }

  function UpperChar(c: char): char
  {
    if 'a' <= c <= 'z' then (c as int - 32) as char else c
  }

  function Lower(s: string): (r: string)
    ensures |r| == |s| && forall i :: 0 <= i < |s| ==> r[i] == LowerChar(s[i])
  {
    seq(|s|, i requires 0 <= i < |s| => LowerChar(s[i]))
  }

  function Upper(s: string): (r: string)
    ensures |r| == |s| && forall i :: 0 <= i < |s| ==> r[i] == UpperChar(s[i])
  {
    seq(|s|, i requires 0 <= i < |s| => UpperChar(s[i]))
  }

  /** Upper-casing twice is upper-casing once. */
  lemma UpperIdempotent(s: string)
    ensures Upper(Upper(s)) == Upper(s)
  {
  }

  lemma LowerIdempotent(s: string)
    ensures Lower(Lower(s)) == Lower(s)
  {
  }

  /** Upper-casing forgets how a string was cased. */
  lemma UpperOfLower(s: string)
    ensures Upper(Lower(s)) == Upper(s)
  {
  }

  /** Lower-casing forgets how a string was cased. */
  lemma LowerOfUpper(s: string)
    ensures Lower(Upper(s)) == Lower(s)
  {
  }

  /** `string.Equals(a, b, StringComparison.OrdinalIgnoreCase)`. */
  predicate EqualsIgnoreCase(a: string, b: string)
  {
    Upper(a) == Upper(b)
  }

  predicate StartsWith(s: string, prefix: string)
  {
    |prefix| <= |s| && s[..|prefix|] == prefix
  }

  /** `s.Contains(sub)` / `s.includes(sub)`: `sub` occurs at some offset of `s`. */
  predicate Contains(s: string, sub: string)
    decreases |s|
  {
    StartsWith(s, sub) || (|s| > 0 && Contains(s[1..], sub))
  }

  /** `sub` occurs in `s` starting at offset `i`. */
  predicate OccursAt(s: string, sub: string, i: int)
  {
    0 <= i <= |s| - |sub| && s[i..i + |sub|] == sub
  }

  lemma {:induction false} ContainsAt(s: string, sub: string)
    ensures Contains(s, sub) <==> exists i :: OccursAt(s, sub, i)
    decreases |s|
  {
    if StartsWith(s, sub) {
      assert OccursAt(s, sub, 0);
    }
    if |s| > 0 {
      ContainsAt(s[1..], sub);
      if Contains(s[1..], sub) {
        var i :| OccursAt(s[1..], sub, i);
        assert s[i + 1..i + 1 + |sub|] == s[1..][i..i + |sub|];
        assert OccursAt(s, sub, i + 1);
      }
      if exists i :: OccursAt(s, sub, i) {
        var i :| OccursAt(s, sub, i);
        if i > 0 {
          assert s[1..][i - 1..i - 1 + |sub|] == s[i..i + |sub|];
          assert OccursAt(s[1..], sub, i - 1);
        }
      }
    }
  }

  /** Every string contains the empty string. */
  lemma ContainsEmpty(s: string)
    ensures Contains(s, "")
  {
  }

  /**
   * `char.IsWhiteSpace`, which is also what the .NET regex class `\s`
   * matches: TAB..CR, NEL (U+0085) and the Unicode separators (Zs, Zl, Zp).
   */
  predicate NetSpace(c: char)
  {
    ('\t' <= c <= '\r') || c == ' ' || c == '\U{85}' || UnicodeSeparator(c)
  }

  /** The Zs, Zl and Zp characters other than the ASCII space. */
  predicate UnicodeSeparator(c: char)
  {
    c == '\U{A0}' || c == '\U{1680}' || ('\U{2000}' <= c <= '\U{200A}') ||
    c == '\U{2028}' || c == '\U{2029}' || c == '\U{202F}' || c == '\U{205F}' ||
    c == '\U{3000}'
  }

  /**
   * ECMAScript WhiteSpace and LineTerminator, which `trim` strips and the
   * JavaScript regex class `\s` matches: unlike .NET, BOM (U+FEFF) is in and
   * NEL (U+0085) is out.
   */
  predicate JsSpace(c: char)
  {
    ('\t' <= c <= '\r') || c == ' ' || c == '\U{FEFF}' || UnicodeSeparator(c)
  }

  /** `string.IsNullOrWhiteSpace`. */
  predicate IsNullOrWhiteSpace(o: Option<string>)
  {
    o.None? || forall i :: 0 <= i < |o.value| ==> NetSpace(o.value[i])
  }

  /** `string.IsNullOrEmpty`. */
  predicate IsNullOrEmpty(o: Option<string>)
  {
    o.None? || o.value == ""
  }

  function TrimStart(s: string): string
  {
    if s != [] && JsSpace(s[0]) then TrimStart(s[1..]) else s
  }

  function TrimEnd(s: string): string
  {
    if s != [] && JsSpace(s[|s| - 1]) then TrimEnd(s[..|s| - 1]) else s
  }

  /** Trimming the start drops the leading white space, and only that. */
  lemma {:induction false} TrimStartSpec(s: string)
    ensures var r := TrimStart(s);
      |r| <= |s| && r == s[|s| - |r|..] && (r != [] ==> !JsSpace(r[0])) &&
      forall i :: 0 <= i < |s| - |r| ==> JsSpace(s[i])
  {
    if s != [] && JsSpace(s[0]) {
      TrimStartSpec(s[1..]);
    }
  }

  /** Trimming the end drops the trailing white space, and only that. */
  lemma {:induction false} TrimEndSpec(s: string)
    ensures var r := TrimEnd(s);
      |r| <= |s| && r == s[..|r|] && (r != [] ==> !JsSpace(r[|r| - 1])) &&
      forall i :: |r| <= i < |s| ==> JsSpace(s[i])
  {
    if s != [] && JsSpace(s[|s| - 1]) {
      TrimEndSpec(s[..|s| - 1]);
    }
  }

  /** `String.prototype.trim`. */
  function JsTrim(s: string): string
  {
    TrimEnd(TrimStart(s))
  }

  /** A string trims to "" exactly when it is made of white space. */
  lemma JsTrimEmpty(s: string)
    ensures JsTrim(s) == "" <==> forall i :: 0 <= i < |s| ==> JsSpace(s[i])
  {
    TrimStartSpec(s);
    TrimEndSpec(TrimStart(s));
  }

  /** Trimming only removes characters: the result is at most as long. */
  lemma JsTrimShorter(s: string)
    ensures |JsTrim(s)| <= |s|
  {
    TrimStartSpec(s);
    TrimEndSpec(TrimStart(s));
  }

  /** Trimming a trimmed string changes nothing. */
  lemma JsTrimIdempotent(s: string)
    ensures JsTrim(JsTrim(s)) == JsTrim(s)
  {
    var t := JsTrim(s);
    TrimStartSpec(s);
    TrimEndSpec(TrimStart(s));
    TrimEndSpec(t);
    assert t != [] ==> !JsSpace(t[0]) by {
      var u := TrimStart(s);
      if t != [] {
        assert t[0] == u[0];
      }
    }
    assert TrimStart(t) == t;
  }

  /** Lower-casing neither makes nor unmakes white space. */
  lemma LowerCharSpace(c: char)
    ensures JsSpace(LowerChar(c)) <==> JsSpace(c)
  {
  }

  lemma {:induction false} TrimStartLower(s: string)
    ensures TrimStart(Lower(s)) == Lower(TrimStart(s))
    decreases |s|
  {
    if s != [] {
      LowerCharSpace(s[0]);
      if JsSpace(s[0]) {
        assert Lower(s)[1..] == Lower(s[1..]);
        TrimStartLower(s[1..]);
      }
    }
  }

  lemma {:induction false} TrimEndLower(s: string)
    ensures TrimEnd(Lower(s)) == Lower(TrimEnd(s))
    decreases |s|
  {
    if s != [] {
      LowerCharSpace(s[|s| - 1]);
      if JsSpace(s[|s| - 1]) {
        assert Lower(s)[..|s| - 1] == Lower(s[..|s| - 1]);
        TrimEndLower(s[..|s| - 1]);
      }
    }
  }

  /** `trim` and `toLowerCase` commute. */
  lemma JsTrimLower(s: string)
    ensures JsTrim(Lower(s)) == Lower(JsTrim(s))
  {
    TrimStartLower(s);
    TrimEndLower(TrimStart(s));
  }

  function NetTrimStart(s: string): (r: string)
    ensures |r| <= |s| && r == s[|s| - |r|..]
    ensures r != [] ==> !NetSpace(r[0])
    ensures forall i :: 0 <= i < |s| - |r| ==> NetSpace(s[i])
  {
    if s != [] && NetSpace(s[0]) then NetTrimStart(s[1..]) else s
  }

  function NetTrimEnd(s: string): (r: string)
    ensures |r| <= |s| && r == s[..|r|]
    ensures r != [] ==> !NetSpace(r[|r| - 1])
    ensures forall i :: |r| <= i < |s| ==> NetSpace(s[i])
  {
    if s != [] && NetSpace(s[|s| - 1]) then NetTrimEnd(s[..|s| - 1]) else s
  }

  /** .NET `string.Trim()`. */
  function NetTrim(s: string): string
  {
    NetTrimEnd(NetTrimStart(s))
  }

  /** `a || b` on strings: an empty (or missing) first value falls through to the second. */
  function Or(a: string, b: string): (r: string)
    ensures r == a || r == b
    ensures r == "" <==> a == "" && b == ""
  {
    if a != "" then a else b
  }

  /** The decimal digit for `d`. */
  function DigitChar(d: int): char
    requires 0 <= d < 10
  {
    (48 + d) as char
  }

  /** `n.ToString()` / string interpolation of an integer: decimal, with a leading '-'. */
  function IntToString(n: int): (r: string)
    ensures |r| >= 1
    decreases if n < 0 then -n + 1 else n
  {
    if n < 0 then "-" + IntToString(-n)
    else if n < 10 then [DigitChar(n)]
    else IntToString(n / 10) + [DigitChar(n % 10)]
  }

  /** `string.Join(sep, parts)`. */
  function Join(sep: string, parts: seq<string>): string
  {
    if parts == [] then "" else if |parts| == 1 then parts[0]
    else parts[0] + sep + Join(sep, parts[1..])
  }
}
