/** The lead field validators shared by the lead forms and the public lead endpoint. */
module LeadValidation {
  import opened Base
  import opened Text

  const PHONE_REQUIRED: string := "Phone is required."
  const PHONE_INVALID: string := "Enter a valid phone number (at least 10 digits)."
  const EMAIL_REQUIRED: string := "Email is required."
  const EMAIL_INVALID: string := "Enter a valid email address."
  const WHATSAPP_INVALID: string := "WhatsApp number must be at least 10 digits."
  const MIN_DIGITS: nat := 10

  /** `s.replace(/\D/g, "").length`: how many ASCII digits `s` holds. */
  function DigitCount(s: string): (n: nat)
    ensures n <= |s|
  {
    if s == [] then 0 else (if IsDigit(s[0]) then 1 else 0) + DigitCount(s[1..])
  }

  lemma {:induction false} DigitCountAppend(a: string, b: string)
    ensures DigitCount(a + b) == DigitCount(a) + DigitCount(b)
  {
    if a == [] {
      assert a + b == b;
    } else {
      assert (a + b)[1..] == a[1..] + b;
      DigitCountAppend(a[1..], b);
    }
  }

  /** Whitespace holds no digits, so trimming keeps the digit count. */
  lemma {:induction false} DigitCountOfWhitespace(s: string)
    requires forall i :: 0 <= i < |s| ==> IsWhitespace(s[i])
    ensures DigitCount(s) == 0
  {
    if s != [] {
      assert !IsDigit(s[0]);
      DigitCountOfWhitespace(s[1..]);
    }
  }

  lemma {:induction false} TrimStartKeepsDigits(s: string)
    ensures DigitCount(TrimStart(s)) == DigitCount(s)
  {
    if s != [] && IsWhitespace(s[0]) {
      TrimStartKeepsDigits(s[1..]);
    }
  }

  lemma {:induction false} TrimEndKeepsDigits(s: string)
    ensures DigitCount(TrimEnd(s)) == DigitCount(s)
  {
    if s != [] && IsWhitespace(s[|s| - 1]) {
      var init := s[..|s| - 1];
      assert s == init + [s[|s| - 1]];
      DigitCountAppend(init, [s[|s| - 1]]);
      TrimEndKeepsDigits(init);
    }
  }

  lemma TrimKeepsDigits(s: string)
    ensures DigitCount(Trim(s)) == DigitCount(s)
  {
    TrimStartKeepsDigits(s);
    TrimEndKeepsDigits(TrimStart(s));
  }

  /** `validatePhone(value)`. */
  function ValidatePhone(value: string): (err: Option<string>)
    ensures Trim(value) == "" ==> err == Some("Phone is required.")
    ensures Trim(value) != "" ==>
      (err.Some? <==> DigitCount(value) < 10)
      && (err.Some? ==> err.value == "Enter a valid phone number (at least 10 digits).")
  {
    var trimmed := Trim(value);
    TrimKeepsDigits(value);
    if trimmed == "" then Some(PHONE_REQUIRED)
    else if DigitCount(trimmed) < MIN_DIGITS then Some(PHONE_INVALID)
    else None
  }

  /** Any characters are tolerated next to ten digits: only the count matters. */
  lemma PhoneCountsOnlyDigits(a: string, b: string)
    requires Trim(a) != "" && Trim(b) != "" && DigitCount(a) == DigitCount(b)
    ensures ValidatePhone(a) == ValidatePhone(b)
  {
  }

  /** `validateWhatsApp(value)`: optional, but when given it needs ten digits. */
  function ValidateWhatsApp(value: string): (err: Option<string>)
    ensures Trim(value) == "" ==> err.None?
    ensures Trim(value) != "" ==>
      (err.Some? <==> DigitCount(value) < 10)
      && (err.Some? ==> err.value == "WhatsApp number must be at least 10 digits.")
  {
    var trimmed := Trim(value);
    TrimKeepsDigits(value);
    if trimmed == "" then None
    else if DigitCount(trimmed) < MIN_DIGITS then Some(WHATSAPP_INVALID)
    else None
  }

  /** A piece of `[^\s@]+`: non-empty, with no whitespace and no `@`. */
  predicate Atom(s: string) {
    s != [] && forall i :: 0 <= i < |s| ==> !IsWhitespace(s[i]) && s[i] != '@'
  }

  /** `/^[^\s@]+@[^\s@]+\.[^\s@]+$/` as the regular expression reads: three atoms joined by `@` and `.`. */
  ghost predicate EmailRegex(s: string) {
    exists a, k :: Split(s, a, k)
  }

  /** `s` read as local part, `@` at `a`, domain, `.` at `k`, top-level domain. */
  predicate Split(s: string, a: int, k: int) {
    0 < a < k < |s| - 1 && s[a] == '@' && s[k] == '.'
    && Atom(s[..a]) && Atom(s[a + 1..k]) && Atom(s[k + 1..])
  }

  /** The split's `@` is the first one. */
  lemma SplitIndex(s: string, a: int, k: int)
    requires Split(s, a, k)
    ensures IndexOf(s, '@') == a
  {
    forall j | 0 <= j < a ensures s[j] != '@' {
      assert s[..a][j] == s[j];
    }
    IndexOfFirst(s, '@', a);
  }

  /** Everything after the split's `@` is one atom. */
  lemma SplitDomain(s: string, a: int, k: int)
    requires Split(s, a, k)
    ensures Atom(s[a + 1..])
  {
    forall i | a + 1 <= i < |s| ensures !IsWhitespace(s[i]) && s[i] != '@' {
      if i < k {
        assert s[a + 1..k][i - a - 1] == s[i];
      } else if i > k {
        assert s[k + 1..][i - k - 1] == s[i];
      }
    }
  }

  /** No `@` but the split's. */
  lemma SplitNoOtherAt(s: string, a: int, k: int)
    requires Split(s, a, k)
    ensures forall p :: 0 <= p < |s| && s[p] == '@' ==> p == a
  {
    forall p | 0 <= p < |s| && p != a ensures s[p] != '@' {
      if p < a {
        assert s[..a][p] == s[p];
      } else if p < k {
        assert s[a + 1..k][p - a - 1] == s[p];
      } else if p > k {
        assert s[k + 1..][p - k - 1] == s[p];
      }
    }
  }

  /** The first index of `c` in `s`, or `|s|`. */
  function IndexOf(s: string, c: char): (i: nat)
    ensures i <= |s| && (i < |s| ==> s[i] == c)
    ensures forall j :: 0 <= j < i ==> s[j] != c
  {
    if s == [] then 0 else if s[0] == c then 0 else 1 + IndexOf(s[1..], c)
  }

  /**
   * The test run by `EMAIL_REGEX.test`: one `@` after a non-empty local part,
   * a domain free of whitespace and `@`, and a `.` strictly inside the domain.
   */
  predicate EmailMatches(s: string) {
    var a := IndexOf(s, '@');
    0 < a < |s| && Atom(s[..a]) && Atom(s[a + 1..])
    && exists k :: a + 1 < k < |s| - 1 && s[k] == '.'
  }

  lemma {:induction false} IndexOfFirst(s: string, c: char, a: nat)
    requires a < |s| && s[a] == c && forall j :: 0 <= j < a ==> s[j] != c
    ensures IndexOf(s, c) == a
  {
    if a > 0 {
      IndexOfFirst(s[1..], c, a - 1);
    }
  }

  lemma MatchesGivesRegex(s: string)
    requires EmailMatches(s)
    ensures EmailRegex(s)
  {
    var a := IndexOf(s, '@');
    var k :| a + 1 < k < |s| - 1 && s[k] == '.';
    var d := s[a + 1..];
    assert s[a + 1..k] == d[..k - a - 1];
    assert s[k + 1..] == d[k - a..];
    assert Atom(s[a + 1..k]);
    assert Atom(s[k + 1..]);
    assert Split(s, a, k);
  }

  lemma RegexGivesMatches(s: string)
    requires EmailRegex(s)
    ensures EmailMatches(s)
  {
    var a, k :| Split(s, a, k);
    SplitIndex(s, a, k);
    SplitDomain(s, a, k);
    assert a + 1 < k < |s| - 1 && s[k] == '.';
  }

  /** The direct test agrees with the regular expression on every string. */
  lemma EmailMatchesIff(s: string)
    ensures EmailMatches(s) <==> EmailRegex(s)
  {
    if EmailMatches(s) {
      MatchesGivesRegex(s);
    }
    if EmailRegex(s) {
      RegexGivesMatches(s);
    }
  }

  /** `validateEmail(value)`. */
  function ValidateEmail(value: string): (err: Option<string>)
    ensures Trim(value) == "" ==> err == Some("Email is required.")
    ensures Trim(value) != "" ==>
      (err.None? <==> EmailMatches(Trim(value)))
      && (err.Some? ==> err.value == "Enter a valid email address.")
  {
    var trimmed := Trim(value);
    if trimmed == "" then Some(EMAIL_REQUIRED)
    else if !EmailMatches(trimmed) then Some(EMAIL_INVALID)
    else None
  }

  /** Accepted addresses are exactly the trims the regular expression matches. */
  lemma EmailAcceptedIff(value: string)
    ensures ValidateEmail(value).None? <==> EmailRegex(Trim(value))
  {
    EmailMatchesIff(Trim(value));
    if Trim(value) == "" {
      assert !EmailRegex(Trim(value));
    }
  }

  /** An address the regular expression accepts has exactly one `@`, the one the direct test splits at. */
  lemma RegexHasOneAt(s: string)
    requires EmailRegex(s)
    ensures forall p :: 0 <= p < |s| && s[p] == '@' ==> p == IndexOf(s, '@')
  {
    var a, k :| Split(s, a, k);
    SplitNoOtherAt(s, a, k);
    SplitIndex(s, a, k);
  }

  /** Each validator depends only on the trimmed input. */
  lemma ValidatorsSeeOnlyTrim(value: string)
    ensures ValidatePhone(value) == ValidatePhone(Trim(value))
    ensures ValidateEmail(value) == ValidateEmail(Trim(value))
    ensures ValidateWhatsApp(value) == ValidateWhatsApp(Trim(value))
  {
    TrimIdempotent(value);
    TrimKeepsDigits(value);
  }
}
