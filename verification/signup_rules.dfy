/**
 * The sign-up form's regular expressions and keystroke filters, written as
 * predicates over characters. Sign-in reuses the username rule unchanged.
 */
module SignupRules {
  import opened Text

  /** `[a-z0-9_]` */
  predicate IsWordChar(c: char) {
    IsLower(c) || IsDigit(c) || c == '_'
  }

  predicate AllWordChars(s: string) {
    forall i :: 0 <= i < |s| ==> IsWordChar(s[i])
  }

  /**
   * `/^(?=.{3,}$)[a-z0-9_]*\.[a-z0-9_]+$/`: at least three characters, a
   * possibly empty word part, a dot at position `d`, and a non-empty word part.
   */
  predicate IsUsername(s: string) {
    |s| >= 3 &&
    exists d :: 0 <= d < |s| - 1 && s[d] == '.' && AllWordChars(s[..d]) && AllWordChars(s[d + 1..])
  }

  /** `/^\+91\d{10}$/`: "+91" and exactly ten ASCII digits. */
  predicate IsPhone(s: string) {
    |s| == 13 && s[..3] == "+91" && forall i :: 3 <= i < 13 ==> IsDigit(s[i])
  }

  /** `[@$!%*?&]` */
  predicate IsPasswordSymbol(c: char) {
    c == '@' || c == '$' || c == '!' || c == '%' || c == '*' || c == '?' || c == '&'
  }

  /** `[A-Za-z\d@$!%*?&]` */
  predicate IsPasswordChar(c: char) {
    IsLower(c) || IsUpper(c) || IsDigit(c) || IsPasswordSymbol(c)
  }

  /**
   * `/^(?=.*[a-z])(?=.*[A-Z])(?=.*\d)(?=.*[@$!%*?&])[A-Za-z\d@$!%*?&]{6,}$/`:
   * six or more allowed characters, among them a lower-case letter, an
   * upper-case letter, a digit and a symbol.
   */
  predicate IsPassword(s: string) {
    && |s| >= 6
    && (forall i :: 0 <= i < |s| ==> IsPasswordChar(s[i]))
    && (exists i :: 0 <= i < |s| && IsLower(s[i]))
    && (exists i :: 0 <= i < |s| && IsUpper(s[i]))
    && (exists i :: 0 <= i < |s| && IsDigit(s[i]))
    && (exists i :: 0 <= i < |s| && IsPasswordSymbol(s[i]))
  }

  /** The username box accepts an edit only when it matches `/^[a-z.]*$/`. */
  predicate UsernameEditAllowed(value: string) {
    forall i :: 0 <= i < |value| ==> IsLower(value[i]) || value[i] == '.'
  }

  /** The phone box accepts an edit only when it matches `/^\+?[0-9]*$/` and is at most 13 long. */
  predicate PhoneEditAllowed(value: string) {
    |value| <= 13 && forall i :: 0 <= i < |value| ==> IsDigit(value[i]) || (i == 0 && value[i] == '+')
  }

  /** The OTP box accepts an edit only when it matches `/^\d{0,6}$/`. */
  predicate OtpEditAllowed(value: string) {
    |value| <= 6 && forall i :: 0 <= i < |value| ==> IsDigit(value[i])
  }

  /** The username rule's alternative form: exactly one dot, not last, among `[a-z0-9_.]`. */
  predicate OneDotUsername(s: string) {
    && |s| >= 3
    && (forall i :: 0 <= i < |s| ==> IsWordChar(s[i]) || s[i] == '.')
    && Count(s, '.') == 1
    && s[|s| - 1] != '.'
  }

  /**
   * The username rule, said without the regular expression: at least three
   * characters from `[a-z0-9_.]`, exactly one of them a dot, and the dot not last.
   */
  lemma UsernameByDotCount(s: string)
    ensures IsUsername(s) <==> OneDotUsername(s)
  {
    if IsUsername(s) {
      UsernameHasOneDot(s);
    }
    if OneDotUsername(s) {
      OneDotIsUsername(s);
    }
  }

  lemma UsernameHasOneDot(s: string)
    requires IsUsername(s)
    ensures OneDotUsername(s)
  {
    var d :| 0 <= d < |s| - 1 && s[d] == '.' && AllWordChars(s[..d]) && AllWordChars(s[d + 1..]);
    SplitAtDot(s, d);
    CountZero(s[..d], '.');
    CountZero(s[d + 1..], '.');
    assert s[|s| - 1] == s[d + 1..][|s| - 1 - (d + 1)];
    forall i | 0 <= i < |s| ensures IsWordChar(s[i]) || s[i] == '.' {
      if i < d { assert s[i] == s[..d][i]; }
      else if i > d { assert s[i] == s[d + 1..][i - (d + 1)]; }
    }
  }

  lemma OneDotIsUsername(s: string)
    requires OneDotUsername(s)
    ensures IsUsername(s)
  {
    var d := FindChar(s, '.');
    SplitAtDot(s, d);
    var prefix, suffix := s[..d], s[d + 1..];
    CountZero(prefix, '.');
    CountZero(suffix, '.');
    assert AllWordChars(prefix) by {
      forall i | 0 <= i < |prefix| ensures IsWordChar(prefix[i]) {
        assert prefix[i] == s[i];
      }
    }
    assert AllWordChars(suffix) by {
      forall i | 0 <= i < |suffix| ensures IsWordChar(suffix[i]) {
        assert suffix[i] == s[i + d + 1];
      }
    }
  }

  /** Splitting at a dot splits its count. */
  lemma SplitAtDot(s: string, d: nat)
    requires d < |s| && s[d] == '.'
    ensures Count(s, '.') == Count(s[..d], '.') + 1 + Count(s[d + 1..], '.')
  {
    assert s == s[..d] + [s[d]] + s[d + 1..];
    CountAppend(s[..d] + [s[d]], s[d + 1..], '.');
    CountAppend(s[..d], [s[d]], '.');
  }

  /** A character that is counted occurs somewhere. */
  lemma {:induction false} FindChar(s: string, c: char) returns (d: nat)
    requires Count(s, c) > 0
    ensures d < |s| && s[d] == c
  {
    if s[0] == c {
      d := 0;
    } else {
      var e := FindChar(s[1..], c);
      d := e + 1;
    }
  }

  /**
   * On names the username box lets through, the rule is only about the dot:
   * at least three letters and dots, one dot, not at the end.
   */
  lemma FilteredUsername(s: string)
    requires UsernameEditAllowed(s)
    ensures IsUsername(s) <==> |s| >= 3 && Count(s, '.') == 1 && s[|s| - 1] != '.'
  {
    assert |s| >= 3 ==> forall i :: 0 <= i < |s| ==> IsWordChar(s[i]) || s[i] == '.';
    UsernameByDotCount(s);
  }

  /** The rule admits digits and underscores that the username box never lets through. */
  lemma UsernameFilterNarrowerThanRule()
    ensures IsUsername("a_b.c") && !UsernameEditAllowed("a_b.c")
  {
    assert "a_b.c"[..3] == "a_b" && "a_b.c"[4..] == "c";
    assert !IsLower("a_b.c"[1]);
  }

  /** Every valid phone number can be typed one keystroke at a time through the phone box. */
  lemma PhoneCanBeTyped(p: string)
    requires IsPhone(p)
    ensures forall n :: 0 <= n <= |p| ==> PhoneEditAllowed(p[..n])
  {
  }

  /** Every OTP box value is a digit string of at most six digits, and its prefixes pass too. */
  lemma OtpEditPrefixes(v: string)
    requires OtpEditAllowed(v)
    ensures forall n :: 0 <= n <= |v| ==> OtpEditAllowed(v[..n])
  {
  }

  /** An accepted password has no white space at all, so it is its own trim. */
  lemma PasswordIsTrimmed(s: string)
    requires IsPassword(s)
    ensures forall i :: 0 <= i < |s| ==> !IsSpace(s[i])
    ensures Trim(s) == s
  {
    TrimUnchanged(s);
  }

  /** The password is checked untrimmed: a padded password is rejected although its trim would pass. */
  lemma PaddedPasswordRejected()
    ensures !IsPassword(" Abc12@") && Trim(" Abc12@") == "Abc12@" && IsPassword("Abc12@")
  {
    var padded, trimmed := " Abc12@", "Abc12@";
    assert !IsPasswordChar(padded[0]);
    assert padded[1..] == trimmed;
    assert TrimStart(trimmed) == trimmed;
    assert TrimEnd(trimmed) == trimmed;
    assert IsUpper(trimmed[0]) && IsLower(trimmed[1]) && IsDigit(trimmed[3]) && IsPasswordSymbol(trimmed[5]);
    assert forall i :: 0 <= i < |trimmed| ==> IsPasswordChar(trimmed[i]);
  }

}
