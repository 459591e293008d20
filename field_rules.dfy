/** Rules shared by the user forms (src/pages/AddUser.tsx, EditUser.tsx,
    ChangePassword.tsx): the two-sided length check with its message
    precedence, and the e-mail pattern `^[^\s@]+@[^\s@]+\.[^\s@]+$`. */
module FieldRules {

  /** A length check between `min` and `max` characters, both inclusive.
      The too-short message is checked first and takes precedence. */
  function LengthMessage(value: string, min: nat, max: nat, tooShort: string, tooLong: string): (msg: string)
    requires tooShort != "" && tooLong != ""
    ensures msg == "" <==> min <= |value| <= max
    ensures |value| < min ==> msg == tooShort
    ensures min <= |value| && max < |value| ==> msg == tooLong
  {
    if |value| < min then tooShort
    else if |value| > max then tooLong
    else ""
  }

  /** JavaScript's `\s`: the ASCII white space, NO-BREAK SPACE, the Unicode
      space separators, the line and paragraph separators and the byte order mark. */
  predicate IsJsWhitespace(c: char) {
    || c == '\t' || c == '\n' || c == '\U{B}' || c == '\U{C}' || c == '\r' || c == ' '
    || c == '\U{A0}' || c == '\U{1680}' || ('\U{2000}' <= c <= '\U{200A}')
    || c == '\U{2028}' || c == '\U{2029}' || c == '\U{202F}' || c == '\U{205F}'
    || c == '\U{3000}' || c == '\U{FEFF}'
  }

  /** The character class `[^\s@]`. */
  predicate IsRunChar(c: char) {
    c != '@' && !IsJsWhitespace(c)
  }

  /** `[^\s@]+`: a non-empty run of such characters. */
  predicate IsRun(s: string) {
    |s| > 0 && forall k | 0 <= k < |s| :: IsRunChar(s[k])
  }

  /** The regular expression, read literally: a run, `@`, a run, `.`, a run,
      covering the whole string. The `.` may be any dot after the `@` that
      leaves a non-empty run on both sides (the engine backtracks to find it). */
  ghost predicate MatchesEmailRegex(s: string) {
    exists i, j | 0 <= i < j < |s| ::
      s[i] == '@' && s[j] == '.' && IsRun(s[..i]) && IsRun(s[i + 1..j]) && IsRun(s[j + 1..])
  }

  /** Position of the first `c` in `s`, or `|s|` when there is none. */
  function IndexOf(s: string, c: char): (i: nat)
    ensures i <= |s|
    ensures i < |s| ==> s[i] == c
    ensures forall k | 0 <= k < i :: s[k] != c
  {
    if s == [] then 0
    else if s[0] == c then 0
    else 1 + IndexOf(s[1..], c)
  }

  /** The e-mail rule in words: no white space anywhere; exactly one `@`,
      not in first position; after it a `.` with at least one character on
      each side. */
  predicate IsValidEmail(s: string) {
    var at := IndexOf(s, '@');
    && 0 < at < |s|
    && (forall k | 0 <= k < |s| :: !IsJsWhitespace(s[k]))
    && (forall k | at < k < |s| :: s[k] != '@')
    && (exists j | at + 1 < j < |s| - 1 :: s[j] == '.')
  }

  /** Every string the rule in words accepts matches the regular expression. */
  lemma EmailRuleImpliesRegex(s: string)
    requires IsValidEmail(s)
    ensures MatchesEmailRegex(s)
  {
    var at := IndexOf(s, '@');
    var j :| at + 1 < j < |s| - 1 && s[j] == '.';
    assert IsRun(s[..at]);
    assert IsRun(s[at + 1..j]);
    assert IsRun(s[j + 1..]);
  }

  /** Every string the regular expression matches is accepted by the rule in words. */
  lemma RegexImpliesEmailRule(s: string)
    requires MatchesEmailRegex(s)
    ensures IsValidEmail(s)
  {
    var i, j :| 0 <= i < j < |s| && s[i] == '@' && s[j] == '.'
      && IsRun(s[..i]) && IsRun(s[i + 1..j]) && IsRun(s[j + 1..]);
    forall k | 0 <= k < i ensures s[k] != '@' {
      assert s[..i][k] == s[k];
    }
    var at := IndexOf(s, '@');
    assert at == i;
    forall k | 0 <= k < |s| ensures !IsJsWhitespace(s[k]) && (i < k ==> s[k] != '@') {
      if k < i {
        assert s[..i][k] == s[k];
      } else if i < k < j {
        assert s[i + 1..j][k - i - 1] == s[k];
      } else if j < k {
        assert s[j + 1..][k - j - 1] == s[k];
      }
    }
    assert at + 1 < j < |s| - 1;
  }

  /** The rule in words accepts exactly the strings the regular expression matches. */
  lemma EmailRuleMatchesRegex(s: string)
    ensures IsValidEmail(s) <==> MatchesEmailRegex(s)
  {
    if IsValidEmail(s) {
      EmailRuleImpliesRegex(s);
    }
    if MatchesEmailRegex(s) {
      RegexImpliesEmailRule(s);
    }
  }

  /** Sample inputs that pass: a plain address and one with a dotted host. */
  lemma EmailAcceptsExamples()
    ensures IsValidEmail("a@b.co")
    ensures IsValidEmail("a@b.c.d")
  {
    assert IndexOf("a@b.co", '@') == 1 && "a@b.co"[3] == '.';
    assert IndexOf("a@b.c.d", '@') == 1 && "a@b.c.d"[3] == '.';
  }

  /** Sample inputs that fail: no local part, no dot in the host, a dot right
      after the `@`, a second `@`, a space. */
  lemma EmailRejectsExamples()
    ensures !IsValidEmail("@b.co")
    ensures !IsValidEmail("a@bco")
    ensures !IsValidEmail("a@.co")
    ensures !IsValidEmail("a@b@c.d")
    ensures !IsValidEmail("a b@c.d")
  {
    assert IndexOf("a@bco", '@') == 1;
    assert IndexOf("a@.co", '@') == 1;
    assert IndexOf("a@b@c.d", '@') == 1 && "a@b@c.d"[3] == '@';
    assert "a b@c.d"[1] == ' ';
  }
}
