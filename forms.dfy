/**
 * What the client's three forms share: the map from field name to error
 * message, the JavaScript values an input holds and how JavaScript tests and
 * compares them, and the browser-side regular expressions.
 */
module Forms {
  import opened Common
  import opened Text
  import Rules

  /** What `setNotification` shows: a message and its kind ("info", "success", "error"). */
  datatype Notification = Notification(message: string, kind: string)

  // ---------------------------------------------------------------------
  // The error map

  /** A field shows an error when its entry is not the blank message. */
  predicate Shown<K, V(==)>(errors: map<K, V>, name: K, blank: V)
  {
    name in errors && errors[name] != blank
  }

  /** Typing into a field blanks its shown error and leaves every other entry alone. */
  function ClearError<K, V(==)>(errors: map<K, V>, name: K, blank: V): (r: map<K, V>)
    ensures r.Keys == errors.Keys
    ensures !Shown(r, name, blank)
    ensures forall k :: k in errors && k != name ==> r[k] == errors[k]
    ensures !Shown(errors, name, blank) ==> r == errors
  {
    if Shown(errors, name, blank) then errors[name := blank] else errors
  }

  // ---------------------------------------------------------------------
  // JavaScript values

  /** What a form field holds: `undefined`, an integer, or the text of an input. */
  datatype JsValue = Undefined | Number(n: int) | Str(s: string)

  /** JavaScript truthiness. */
  predicate Truthy(v: JsValue)
  {
    match v
    case Undefined => false
    case Number(n) => n != 0
    case Str(s) => s != ""
  }

  /** The value of a non-empty run of decimal digits. */
  function DigitsValue(u: string): int
  {
    if u == [] then 0 else 10 * DigitsValue(u[..|u| - 1]) + (u[|u| - 1] as int - '0' as int)
  }

  function Digits(u: string): (r: Option<int>)
    ensures r.Some? <==> |u| >= 1 && forall i :: 0 <= i < |u| ==> Rules.AsciiDigit(u[i])
  {
    if |u| >= 1 && forall i :: 0 <= i < |u| ==> Rules.AsciiDigit(u[i]) then Some(DigitsValue(u)) else None
  }

  /** `Number(s)` for a signed decimal integer; `None` stands for NaN. */
  function ParseNumber(s: string): (r: Option<int>)
  {
    var t := JsTrim(s);
    if t == "" then Some(0)
    else if t[0] == '-' then (match Digits(t[1..]) case Some(n) => Some(-n) case None => None)
    else if t[0] == '+' then Digits(t[1..])
    else Digits(t)
  }

  /** `ToNumber`. */
  function ToNumber(v: JsValue): Option<int>
  {
    match v
    case Undefined => None
    case Number(n) => Some(n)
    case Str(s) => ParseNumber(s)
  }

  /** `a < b` on two strings: code unit by code unit, a proper prefix first. */
  predicate StringLess(a: string, b: string)
  {
    if a == [] then b != []
    else if b == [] then false
    else if a[0] != b[0] then a[0] < b[0]
    else StringLess(a[1..], b[1..])
  }

  /** `a < b`: two strings compare as text, anything else as numbers, and NaN compares false. */
  predicate Less(a: JsValue, b: JsValue)
  {
    if a.Str? && b.Str? then StringLess(a.s, b.s)
    else ToNumber(a).Some? && ToNumber(b).Some? && ToNumber(a).value < ToNumber(b).value
  }

  /** `a < b` between numbers only. */
  predicate NumericLess(a: JsValue, b: JsValue)
  {
    ToNumber(a).Some? && ToNumber(b).Some? && ToNumber(a).value < ToNumber(b).value
  }

  /** A string never comes before itself, and of two different strings exactly one comes first. */
  lemma {:induction false} StringLessTotal(a: string, b: string)
    ensures !(StringLess(a, b) && StringLess(b, a))
    ensures a != b ==> StringLess(a, b) || StringLess(b, a)
    ensures !StringLess(a, a)
  {
    if a != [] && b != [] {
      StringLessTotal(a[1..], b[1..]);
      if a[0] == b[0] && a != b {
        assert a == [a[0]] + a[1..] && b == [b[0]] + b[1..];
      }
    }
    if a != [] {
      StringLessTotal(a[1..], a[1..]);
    }
  }

  /** Compared with a number, a string is read as a number. */
  lemma LessWithNumber(s: string, n: int)
    ensures Less(Str(s), Number(n)) <==> ParseNumber(s).Some? && ParseNumber(s).value < n
    ensures Less(Number(n), Str(s)) <==> ParseNumber(s).Some? && n < ParseNumber(s).value
  {
  }

  function Pow10(n: nat): (r: nat)
    ensures r >= 1
  {
    if n == 0 then 1 else 10 * Pow10(n - 1)
  }

  predicate AllDigits(u: string)
  {
    forall i :: 0 <= i < |u| ==> Rules.AsciiDigit(u[i])
  }

  /** A run of `n` digits is below 10^n, and at least 10^(n-1) when it does not start with 0. */
  lemma {:induction false} DigitsValueBounds(u: string)
    requires AllDigits(u)
    ensures 0 <= DigitsValue(u) < Pow10(|u|)
    ensures |u| >= 1 && u[0] != '0' ==> Pow10(|u| - 1) <= DigitsValue(u)
  {
    if u != [] {
      var init := u[..|u| - 1];
      assert AllDigits(init);
      DigitsValueBounds(init);
      assert Rules.AsciiDigit(u[|u| - 1]);
      if |init| >= 1 {
        assert init[0] == u[0];
      }
    }
  }

  /** An unsigned decimal numeral with no surrounding space reads as its digits' value. */
  lemma ParseDigits(u: string)
    requires |u| >= 1 && AllDigits(u)
    ensures ParseNumber(u) == Some(DigitsValue(u))
  {
    assert Rules.AsciiDigit(u[0]) && Rules.AsciiDigit(u[|u| - 1]);
    JsTrimNoSpace(u);
  }

  /**
   * Two numerals compare as text, not as numbers: a shorter numeral with a
   * larger first digit comes after a longer one, though its value is smaller.
   */
  lemma TextOrderIsNotNumericOrder(a: string, b: string)
    requires |a| >= 1 && |b| >= 1 && AllDigits(a) && AllDigits(b)
    requires a[0] != '0' && b[0] != '0' && |a| < |b| && b[0] < a[0]
    ensures Less(Str(b), Str(a))
    ensures NumericLess(Str(a), Str(b))
  {
    assert StringLess(b, a);
    ParseDigits(a);
    ParseDigits(b);
    LongerNumeralIsLarger(a, b);
  }

  lemma LongerNumeralIsLarger(a: string, b: string)
    requires AllDigits(a) && AllDigits(b)
    requires |b| >= 1 && b[0] != '0' && |a| < |b|
    ensures DigitsValue(a) < DigitsValue(b)
  {
    DigitsValueBounds(a);
    DigitsValueBounds(b);
    PowMono(|a|, |b| - 1);
  }

  lemma {:induction false} PowMono(m: nat, n: nat)
    requires m <= n
    ensures Pow10(m) <= Pow10(n)
  {
    if m < n {
      PowMono(m, n - 1);
    }
  }

  /** For instance, 9 000 000 is less than 12 000 000 but "9000000" is greater than "12000000". */
  lemma NineMillionAfterTwelveMillion()
    ensures Less(Str("12000000"), Str("9000000"))
    ensures NumericLess(Str("9000000"), Str("12000000"))
  {
    TextOrderIsNotNumericOrder("9000000", "12000000");
  }

  /** A string with no white space at either end is its own trim. */
  lemma JsTrimNoSpace(s: string)
    requires s != [] && !JsSpace(s[0]) && !JsSpace(s[|s| - 1])
    ensures JsTrim(s) == s
  {
  }

  // ---------------------------------------------------------------------
  // The browser's regular expressions. Without the `m` flag `$` matches only
  // at the very end, and `.` matches anything but a line terminator.

  predicate JsLineTerminator(c: char)
  {
    c == '\n' || c == '\r' || c == '\U{2028}' || c == '\U{2029}'
  }

  /** `^(?=.*?[A-Z])(?=.*?[a-z])(?=.*?[0-9])(?=.*?[#?!@$%^&*-]).{6,}$` in JavaScript. */
  predicate JsStrongPassword(s: string)
  {
    |s| >= 6 &&
    (forall i :: 0 <= i < |s| ==> !JsLineTerminator(s[i])) &&
    (exists i :: 0 <= i < |s| && Rules.AsciiUpper(s[i])) &&
    (exists i :: 0 <= i < |s| && Rules.AsciiLower(s[i])) &&
    (exists i :: 0 <= i < |s| && Rules.AsciiDigit(s[i])) &&
    (exists i :: 0 <= i < |s| && Rules.PasswordSymbol(s[i]))
  }

  /** A password the browser calls strong, the server's validator calls strong too. */
  lemma JsStrongIsServerStrong(s: string)
    requires JsStrongPassword(s)
    ensures Rules.StrongPassword(s)
  {
    assert Rules.BeforeFinalNewline(s) == s by {
      assert !JsLineTerminator(s[|s| - 1]);
    }
  }

  /** The server accepts "Abcde1!\n" as strong; the browser does not. */
  lemma ServerAllowsFinalNewline()
    ensures Rules.StrongPassword("Abcde1!\n")
    ensures !JsStrongPassword("Abcde1!\n")
  {
    var s := "Abcde1!\n";
    assert Rules.BeforeFinalNewline(s) == "Abcde1!";
    Rules.StrongPasswordExample();
    assert JsLineTerminator(s[7]);
  }

  /** The class `[a-zA-Z\sÀ-ỹà-ỹ]` with JavaScript's `\s`. */
  predicate JsNameChar(c: char)
  {
    Rules.AsciiUpper(c) || Rules.AsciiLower(c) || JsSpace(c) || ('\U{C0}' <= c <= '\U{1EF9}')
  }

  /** `^[a-zA-Z\sÀ-ỹà-ỹ]+$`. */
  predicate JsPersonName(s: string)
  {
    |s| >= 1 && forall i :: 0 <= i < |s| ==> JsNameChar(s[i])
  }

  /** The lower-case e-mail pattern, matched against the whole string. */
  predicate JsEmail(s: string)
  {
    exists k :: 0 <= k < |s| && s[k] == '@' && Rules.LocalPart(s[..k]) && Rules.DomainPart(s[k + 1..])
  }

  /** The browser's e-mail pattern accepts what the server's lower-case pattern accepts, minus a final newline. */
  lemma JsEmailIsServerEmail(s: string)
    requires JsEmail(s)
    ensures Rules.LowerCaseEmail(s)
  {
    var k :| 0 <= k < |s| && s[k] == '@' && Rules.LocalPart(s[..k]) && Rules.DomainPart(s[k + 1..]);
    var domain := s[k + 1..];
    assert s[|s| - 1] == domain[|domain| - 1];
    assert Rules.BeforeFinalNewline(s) == s;
  }

  /** `/^[0-9a-f]{8}-[0-9a-f]{4}-[1-5][0-9a-f]{3}-[89ab][0-9a-f]{3}-[0-9a-f]{12}$/i`. */
  predicate HexDigit(c: char)
  {
    Rules.AsciiDigit(c) || 'a' <= c <= 'f' || 'A' <= c <= 'F'
  }

  /** The positions of the four hyphens. */
  predicate DashAt(i: int)
  {
    i == 8 || i == 13 || i == 18 || i == 23
  }

  predicate GuidV1To5(s: string)
  {
    |s| == 36 &&
    (forall i :: 0 <= i < 36 ==> (s[i] == '-' <==> DashAt(i))) &&
    (forall i :: 0 <= i < 36 && !DashAt(i) ==> HexDigit(s[i])) &&
    '1' <= s[14] <= '5' &&
    s[19] in "89abAB"
  }

  /** The nil GUID has version 0 and is refused. */
  lemma NilGuidRefused()
    ensures !GuidV1To5("00000000-0000-0000-0000-000000000000")
  {
  }
}
