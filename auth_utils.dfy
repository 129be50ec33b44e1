/** The input validators of web/app/auth_utils.py: the post-login redirect
    guard, the e-mail shape check and the password rules. */
module AuthUtils {
  import opened Common
  import opened Text

  /** `is_safe_next_url`: only a site-relative path is followed, never a
      scheme-relative `//host` URL. */
  function IsSafeNextUrl(nextUrl: Option<string>): (r: bool)
    ensures r <==> nextUrl.Some? && |nextUrl.value| > 0 && nextUrl.value[0] == '/'
                   && (|nextUrl.value| == 1 || nextUrl.value[1] != '/')
  {
    nextUrl.Some? && nextUrl.value != "" && StartsWith(nextUrl.value, "/")
    && !StartsWith(nextUrl.value, "//")
  }

  /** A character of the class `[^@\s]`. */
  predicate PlainChar(c: char) { c != '@' && !IsSpace(c) }

  /** A non-empty run of `[^@\s]`, i.e. `[^@\s]+`. */
  ghost predicate PlainRun(t: string)
  {
    |t| > 0 && forall k :: 0 <= k < |t| ==> PlainChar(t[k])
  }

  /** What `EMAIL_RE` (`^[^@\s]+@[^@\s]+\.[^@\s]+$`) matches, written as the
      concatenation of its five pieces. */
  ghost predicate MatchesEmailPattern(s: string)
  {
    exists i, j :: 0 < i && i + 1 < j && j + 1 < |s| && s[i] == '@' && s[j] == '.'
      && PlainRun(s[..i]) && PlainRun(s[i + 1..j]) && PlainRun(s[j + 1..])
  }

  /** The domain part after the `@`: no `@` or whitespace, and a dot that is
      neither its first nor its last character. */
  predicate DomainOk(d: string)
  {
    (forall k :: 0 <= k < |d| ==> PlainChar(d[k]))
    && exists k :: 0 < k < |d| - 1 && d[k] == '.'
  }

  /** `validate_email`, computed without a regular-expression engine: split
      at the first `@` and check both sides. */
  function ValidateEmail(email: string): bool
  {
    var local := CutAt(email, '@');
    0 < |local| < |email|
    && (forall k :: 0 <= k < |local| ==> !IsSpace(local[k]))
    && DomainOk(email[|local| + 1..])
  }

  /** Every string `validate_email` accepts matches the pattern. */
  lemma ValidEmailMatchesPattern(email: string)
    requires ValidateEmail(email)
    ensures MatchesEmailPattern(email)
  {
    var local := CutAt(email, '@');
    var i := |local|;
    var d := email[i + 1..];
    var k :| 0 < k < |d| - 1 && d[k] == '.';
    var j := i + 1 + k;
    assert email[..i] == local;
    assert PlainRun(email[..i]);
    assert email[i + 1..j] == d[..k];
    assert PlainRun(email[i + 1..j]);
    assert email[j + 1..] == d[k + 1..];
    assert PlainRun(email[j + 1..]);
  }

  /** Every string the pattern matches is accepted by `validate_email`. */
  lemma PatternMatchIsValidEmail(email: string)
    requires MatchesEmailPattern(email)
    ensures ValidateEmail(email)
  {
    var i, j :| 0 < i && i + 1 < j && j + 1 < |email| && email[i] == '@' && email[j] == '.'
      && PlainRun(email[..i]) && PlainRun(email[i + 1..j]) && PlainRun(email[j + 1..]);
    LocalPartOfRun(email, i);
    SliceAround(email, i + 1, j);
    DomainOfParts(email[i + 1..j], email[j + 1..]);
  }

  /** When `s[..i]` is a run and `s[i]` is the `@`, the split at the first
      `@` gives that run, which has no whitespace. */
  lemma LocalPartOfRun(s: string, i: int)
    requires 0 < i < |s| && s[i] == '@' && PlainRun(s[..i])
    ensures CutAt(s, '@') == s[..i]
    ensures forall k :: 0 <= k < i ==> !IsSpace(s[..i][k])
  {
    assert '@' !in s[..i] by {
      forall k | 0 <= k < i ensures s[..i][k] != '@' { assert PlainChar(s[..i][k]); }
    }
    CutAtFirst(s, '@', i);
  }

  /** Two runs joined by a dot form an acceptable domain. */
  lemma DomainOfParts(a: string, b: string)
    requires PlainRun(a) && PlainRun(b)
    ensures DomainOk(a + ['.'] + b)
  {
    var d := a + ['.'] + b;
    assert d[|a|] == '.';
    forall k | 0 <= k < |d| ensures PlainChar(d[k]) {
      if k < |a| {
        assert d[k] == a[k];
      } else if k > |a| {
        assert d[k] == b[k - |a| - 1];
      }
    }
  }

  /** `validate_email` accepts exactly the strings the pattern matches. */
  lemma ValidateEmailIsPattern(email: string)
    ensures ValidateEmail(email) <==> MatchesEmailPattern(email)
  {
    if ValidateEmail(email) { ValidEmailMatchesPattern(email); }
    if MatchesEmailPattern(email) { PatternMatchIsValidEmail(email); }
  }

  /** The five password rules, in the order `validate_password` checks
      them; `Message` is the text it appends for a broken rule. */
  datatype PasswordRule = TooShort | NeedsLower | NeedsUpper | NeedsDigit | NeedsSymbol
  {
    function Rank(): int
    {
      match this
      case TooShort => 0
      case NeedsLower => 1
      case NeedsUpper => 2
      case NeedsDigit => 3
      case NeedsSymbol => 4
    }

    function Message(): string
    {
      match this
      case TooShort => "Password must be at least 8 characters"
      case NeedsLower => "Password must include a lowercase letter"
      case NeedsUpper => "Password must include an uppercase letter"
      case NeedsDigit => "Password must include a number"
      case NeedsSymbol => "Password must include a symbol"
    }
  }

  /** `re.search(r"[a-z]", p)` and its siblings. */
  predicate HasLower(p: string) { exists k :: 0 <= k < |p| && IsLower(p[k]) }
  predicate HasUpper(p: string) { exists k :: 0 <= k < |p| && IsUpper(p[k]) }
  predicate HasDigit(p: string) { exists k :: 0 <= k < |p| && IsDigit(p[k]) }
  predicate HasSymbol(p: string)
  {
    exists k :: 0 <= k < |p| && !IsLower(p[k]) && !IsUpper(p[k]) && !IsDigit(p[k])
  }

  /** Whether `password` breaks `rule`. */
  predicate Broken(rule: PasswordRule, password: string)
  {
    match rule
    case TooShort => |password| < 8
    case NeedsLower => !HasLower(password)
    case NeedsUpper => !HasUpper(password)
    case NeedsDigit => !HasDigit(password)
    case NeedsSymbol => !HasSymbol(password)
  }

  /** The rule checked at position `n` of the fixed order. */
  function RuleAt(n: int): (r: PasswordRule)
    requires 0 <= n < 5
    ensures r.Rank() == n
  {
    if n == 0 then TooShort
    else if n == 1 then NeedsLower
    else if n == 2 then NeedsUpper
    else if n == 3 then NeedsDigit
    else NeedsSymbol
  }

  /** The report after checking the first `n` rules in order. */
  function ReportUpTo(password: string, n: int): (errors: seq<PasswordRule>)
    requires 0 <= n <= 5
    ensures |errors| <= n
  {
    if n == 0 then []
    else
      var rule := RuleAt(n - 1);
      ReportUpTo(password, n - 1) + (if Broken(rule, password) then [rule] else [])
  }

  /** The report after `n` checks holds exactly the broken rules of rank
      below `n`, in ascending rank. */
  lemma {:induction false} ReportUpToFacts(password: string, n: int)
    requires 0 <= n <= 5
    ensures forall r :: r in ReportUpTo(password, n) <==> r.Rank() < n && Broken(r, password)
    ensures forall i, j :: 0 <= i < j < |ReportUpTo(password, n)| ==>
              ReportUpTo(password, n)[i].Rank() < ReportUpTo(password, n)[j].Rank()
    ensures forall i :: 0 <= i < |ReportUpTo(password, n)| ==> ReportUpTo(password, n)[i].Rank() < n
  {
    if n > 0 {
      ReportUpToFacts(password, n - 1);
      var prev := ReportUpTo(password, n - 1);
      var rule := RuleAt(n - 1);
      assert ReportUpTo(password, n) == prev + (if Broken(rule, password) then [rule] else []);
      forall r ensures r in ReportUpTo(password, n) <==> r.Rank() < n && Broken(r, password) {
        if r.Rank() == n - 1 {
          assert r == rule;
        }
      }
    }
  }

  /** The full report lists every broken rule, in ascending rank, and it
      is empty exactly when no rule is broken. */
  lemma FullReport(password: string)
    ensures forall r :: r in ReportUpTo(password, 5) <==> Broken(r, password)
    ensures forall i, j :: 0 <= i < j < |ReportUpTo(password, 5)| ==>
              ReportUpTo(password, 5)[i].Rank() < ReportUpTo(password, 5)[j].Rank()
    ensures ReportUpTo(password, 5) == [] <==> (|password| >= 8 && HasLower(password) && HasUpper(password)
                                               && HasDigit(password) && HasSymbol(password))
  {
    ReportUpToFacts(password, 5);
    var errors := ReportUpTo(password, 5);
    assert forall r: PasswordRule :: r.Rank() < 5;
    if errors != [] {
      assert errors[0] in errors;
    } else {
      assert !Broken(TooShort, password) && !Broken(NeedsLower, password);
      assert !Broken(NeedsUpper, password) && !Broken(NeedsDigit, password);
      assert !Broken(NeedsSymbol, password);
    }
  }

  /** `validate_password`: one entry per broken rule, in the fixed order
      length, lowercase, uppercase, digit, symbol; `FullReport` states
      what that report holds. */
  method ValidatePassword(password: string) returns (errors: seq<PasswordRule>)
    ensures errors == ReportUpTo(password, 5)
  {
    errors := [];
    errors := if |password| < 8 then errors + [TooShort] else errors;
    assert errors == ReportUpTo(password, 1);
    errors := if !HasLower(password) then errors + [NeedsLower] else errors;
    assert errors == ReportUpTo(password, 2);
    errors := if !HasUpper(password) then errors + [NeedsUpper] else errors;
    assert errors == ReportUpTo(password, 3);
    errors := if !HasDigit(password) then errors + [NeedsDigit] else errors;
    assert errors == ReportUpTo(password, 4);
    errors := if !HasSymbol(password) then errors + [NeedsSymbol] else errors;
  }
}
