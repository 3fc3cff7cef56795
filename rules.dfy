/**
 * The FluentValidation rule vocabulary the server's validators are built
 * from, and the regular expressions they use, as predicates.
 *
 * A rule chain reports one message per failing validator, in order; every
 * validator of a chain runs (the default cascade mode). A `.When(c)` gates
 * every validator written before it in the same chain, so a validator
 * followed by two `.When`s runs only when both conditions hold. Validators
 * other than `NotEmpty` and `Must` pass on a null value.
 */
module Rules {
  import opened Common
  import opened Text

  /** What a validator reports: nothing when its check holds, else its message. */
  function Check(ok: bool, message: string): (r: seq<string>)
    ensures r == [] <==> ok
  {
    if ok then [] else [message]
  }

  /** `.When(cond)` over the failures of the validators it governs. */
  function When(cond: bool, failures: seq<string>): (r: seq<string>)
    ensures r == [] <==> !cond || failures == []
  {
    if cond then failures else []
  }

  /** `NotEmpty` on a string: not null and not white space only. */
  predicate NotEmpty(o: Option<string>)
  {
    !IsNullOrWhiteSpace(o)
  }

  predicate MaximumLength(o: Option<string>, n: nat)
  {
    o.None? || |o.value| <= n
  }

  predicate MinimumLength(o: Option<string>, n: nat)
  {
    o.None? || |o.value| >= n
  }

  predicate Matches(o: Option<string>, pattern: string -> bool)
  {
    o.None? || pattern(o.value)
  }

  predicate InclusiveBetween(o: Option<int>, lo: int, hi: int)
  {
    o.None? || lo <= o.value <= hi
  }

  /**
   * The checks the validators delegate to the framework: `Uri.TryCreate`
   * with `UriKind.Absolute`, FluentValidation's `EmailAddress`, and the
   * phone-number regular expression.
   */
  datatype Oracles = Oracles(
    absoluteUri: string -> bool,
    emailAddress: string -> bool,
    phone: string -> bool)

  /** The one fact the proofs use about them: the empty string is no absolute URI. */
  predicate Sane(o: Oracles)
  {
    !o.absoluteUri("")
  }

  /** The instants the validators read from the clock when they are built. */
  datatype Clock = Clock(
    now: int,
    /** `DateTime.Now.AddYears(-16)`. */
    sixteenYearsAgo: int,
    currentYear: int)

  // ---------------------------------------------------------------------
  // Regular expressions. In .NET `$` also matches before a final "\n", and
  // `.` matches anything but "\n".

  /** The string a trailing-`$` pattern sees: a final "\n" is not part of the match. */
  function BeforeFinalNewline(s: string): (t: string)
    ensures |t| <= |s| && t == s[..|t|] && |s| - |t| <= 1
    ensures |t| < |s| ==> s[|s| - 1] == '\n'
  {
    if |s| > 0 && s[|s| - 1] == '\n' then s[..|s| - 1] else s
  }

  predicate AsciiUpper(c: char) { 'A' <= c <= 'Z' }
  predicate AsciiLower(c: char) { 'a' <= c <= 'z' }
  predicate AsciiDigit(c: char) { '0' <= c <= '9' }
  predicate PasswordSymbol(c: char) { c in "#?!@$%^&*-" }

  /**
   * `^(?=.*?[A-Z])(?=.*?[a-z])(?=.*?[0-9])(?=.*?[#?!@$%^&*-]).{6,}$`: at
   * least six characters on one line, with an upper-case letter, a
   * lower-case letter, a digit and one of the listed symbols.
   */
  predicate StrongPassword(s: string)
  {
    var t := BeforeFinalNewline(s);
    |t| >= 6 &&
    (forall i :: 0 <= i < |t| ==> t[i] != '\n') &&
    (exists i :: 0 <= i < |t| && AsciiUpper(t[i])) &&
    (exists i :: 0 <= i < |t| && AsciiLower(t[i])) &&
    (exists i :: 0 <= i < |t| && AsciiDigit(t[i])) &&
    (exists i :: 0 <= i < |t| && PasswordSymbol(t[i]))
  }

  /** The class `[a-zA-Z\sÀ-ỹà-ỹ]`. */
  predicate NameChar(c: char)
  {
    AsciiUpper(c) || AsciiLower(c) || NetSpace(c) || ('\U{C0}' <= c <= '\U{1EF9}')
  }

  /** `^[a-zA-Z\sÀ-ỹà-ỹ]+$` (the class holds "\n", so `$` adds nothing). */
  predicate PersonName(s: string)
  {
    |s| >= 1 && forall i :: 0 <= i < |s| ==> NameChar(s[i])
  }

  /** The class ``[a-z0-9!#$%&'*+/=?^_`{|}~-]`` of the local part. */
  predicate AtomChar(c: char)
  {
    AsciiLower(c) || AsciiDigit(c) || c in "!#$%&'*+/=?^_`{|}~-"
  }

  /** `[a-z0-9]`, which begins and ends each domain label. */
  predicate LabelEdge(c: char) { AsciiLower(c) || AsciiDigit(c) }

  /** `[atom]+(?:\.[atom]+)*`: atoms joined by single dots. */
  predicate LocalPart(s: string)
  {
    |s| >= 1 && s[0] != '.' && s[|s| - 1] != '.' &&
    (forall i :: 0 <= i < |s| ==> AtomChar(s[i]) || s[i] == '.') &&
    (forall i, j :: 0 <= i < |s| && 0 <= j < |s| && j == i + 1 ==> !(s[i] == '.' && s[j] == '.'))
  }

  /**
   * `(?:label\.)+label` with `label = [a-z0-9](?:[a-z0-9-]*[a-z0-9])?`: at
   * least two labels, each starting and ending with a letter or digit.
   */
  predicate DomainPart(s: string)
  {
    |s| >= 1 && LabelEdge(s[0]) && LabelEdge(s[|s| - 1]) &&
    (forall i :: 0 <= i < |s| ==> LabelEdge(s[i]) || s[i] == '-' || s[i] == '.') &&
    (forall i, j :: 0 <= i < |s| && 0 <= j < |s| && j == i + 1 ==>
      (s[i] == '.' ==> LabelEdge(s[j])) && (s[j] == '.' ==> LabelEdge(s[i]))) &&
    (exists i :: 0 <= i < |s| && s[i] == '.')
  }

  /** The lower-case e-mail pattern of the registration form. */
  predicate LowerCaseEmail(s: string)
  {
    var t := BeforeFinalNewline(s);
    exists k :: 0 <= k < |t| && t[k] == '@' && LocalPart(t[..k]) && DomainPart(t[k + 1..])
  }

  /** No address with an upper-case letter fits the pattern. */
  lemma UpperCaseEmailFails(s: string, j: int)
    requires 0 <= j < |s| && AsciiUpper(s[j])
    ensures !LowerCaseEmail(s)
  {
    var t := BeforeFinalNewline(s);
    if j < |t| {
      assert t[j] == s[j];
      forall k | 0 <= k < |t| && t[k] == '@'
        ensures !(LocalPart(t[..k]) && DomainPart(t[k + 1..]))
      {
        UpperBreaksSplit(t, k, j);
      }
    }
  }

  /** An upper-case letter fits neither side of the `@`. */
  lemma UpperBreaksSplit(t: string, k: int, j: int)
    requires 0 <= k < |t| && t[k] == '@' && 0 <= j < |t| && AsciiUpper(t[j])
    ensures !(LocalPart(t[..k]) && DomainPart(t[k + 1..]))
  {
    var local, domain := t[..k], t[k + 1..];
    LocalHasNoUpper(local);
    DomainHasNoUpper(domain);
    if j < k {
      assert local[j] == t[j];
    } else if k < j {
      assert domain[j - k - 1] == t[j];
    }
  }

  lemma LocalHasNoUpper(local: string)
    ensures LocalPart(local) ==> forall i :: 0 <= i < |local| ==> !AsciiUpper(local[i])
  {
  }

  lemma DomainHasNoUpper(domain: string)
    ensures DomainPart(domain) ==> forall i :: 0 <= i < |domain| ==> !AsciiUpper(domain[i])
  {
  }

  /** A name with a digit or a symbol is refused; one of three letters or more is not. */
  lemma PersonNameExamples()
    ensures PersonName("Nguyễn Văn An")
    ensures !PersonName("An2")
    ensures !PersonName("")
  {
    assert !NameChar("An2"[2]);
  }

  /** A password lacking a symbol is weak whatever its length. */
  lemma WeakWithoutSymbol(s: string)
    requires forall i :: 0 <= i < |s| ==> !PasswordSymbol(s[i])
    ensures !StrongPassword(s)
  {
    var t := BeforeFinalNewline(s);
    assert forall i :: 0 <= i < |t| ==> t[i] == s[i];
  }

  lemma StrongPasswordExample()
    ensures StrongPassword("Abcde1!")
    ensures !StrongPassword("abcde1!")
  {
    var s := "Abcde1!";
    assert BeforeFinalNewline(s) == s;
    assert AsciiUpper(s[0]) && AsciiLower(s[1]) && AsciiDigit(s[5]) && PasswordSymbol(s[6]);
    var w := "abcde1!";
    assert forall i :: 0 <= i < |w| ==> !AsciiUpper(w[i]);
    NoUpperNotStrong(w);
  }

  /** A password without an upper-case letter is not strong. */
  lemma NoUpperNotStrong(s: string)
    requires forall i :: 0 <= i < |s| ==> !AsciiUpper(s[i])
    ensures !StrongPassword(s)
  {
    var t := BeforeFinalNewline(s);
    assert forall i :: 0 <= i < |t| ==> t[i] == s[i];
  }
}
