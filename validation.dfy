/** Contact-form validation: the e-mail shape check, the blank and minimum-length
    checks, and the per-field error record. */
module Validation {
  import opened Text

  /** A character class `[^\s@]`. */
  predicate Plain(c: char) {
    !IsWhitespace(c) && c != '@'
  }

  predicate AllPlain(s: string) {
    forall i | 0 <= i < |s| :: Plain(s[i])
  }

  /** The language of `/^[^\s@]+@[^\s@]+\.[^\s@]+$/`, written out: three non-empty runs
      of plain characters around one '@' and one '.'. */
  ghost predicate MatchesEmailPattern(s: string) {
    exists i, j | 0 < i && i + 1 < j && j + 1 < |s| ::
      && s[i] == '@' && s[j] == '.'
      && AllPlain(s[..i]) && AllPlain(s[i + 1..j]) && AllPlain(s[j + 1..])
  }

  /** A '.' that is neither the first nor the last character. */
  predicate HasInnerDot(d: string) {
    exists k | 0 < k < |d| - 1 :: d[k] == '.'
  }

  /** `isValidEmail(email)`: exactly one '@', a non-empty local part, no whitespace,
      and a domain with an inner '.'. */
  function IsValidEmail(email: string): bool {
    var parts := Split(email, '@');
    && |parts| == 2
    && parts[0] != []
    && AllPlain(parts[0])
    && AllPlain(parts[1])
    && HasInnerDot(parts[1])
  }

  /** Two pieces split on '@' join back around one '@'. */
  lemma TwoParts(email: string)
    requires |Split(email, '@')| == 2
    ensures email == Split(email, '@')[0] + "@" + Split(email, '@')[1]
  {
    var parts := Split(email, '@');
    assert parts[1..] == [parts[1]];
    assert Join(parts, "@") == parts[0] + "@" + Join(parts[1..], "@");
  }

  lemma ValidEmailMatches(email: string)
    requires IsValidEmail(email)
    ensures MatchesEmailPattern(email)
  {
    var parts := Split(email, '@');
    var local, domain := parts[0], parts[1];
    TwoParts(email);
    var k :| 0 < k < |domain| - 1 && domain[k] == '.';
    var i, j := |local|, |local| + 1 + k;
    assert email[..i] == local;
    assert email[i + 1..j] == domain[..k];
    assert email[j + 1..] == domain[k + 1..];
    assert email[i] == '@' && email[j] == '.';
  }

  lemma AllPlainHasNoAt(s: string)
    requires AllPlain(s)
    ensures '@' !in s
  {
    forall m | 0 <= m < |s| ensures s[m] != '@' {
      assert Plain(s[m]);
    }
  }

  /** A domain made of two plain runs around a dot is plain and has an inner dot. */
  lemma DottedDomain(mid: string, tld: string)
    requires mid != [] && tld != [] && AllPlain(mid) && AllPlain(tld)
    ensures AllPlain(mid + ['.'] + tld) && HasInnerDot(mid + ['.'] + tld)
  {
    var d := mid + ['.'] + tld;
    forall m | 0 <= m < |d| ensures Plain(d[m]) {
      if m < |mid| {
        assert d[m] == mid[m];
      } else if m > |mid| {
        assert d[m] == tld[m - |mid| - 1];
      }
    }
    assert d[|mid|] == '.';
  }

  /** Three plain runs around '@' and '.' pass the decision procedure. */
  lemma ValidFromRuns(local: string, mid: string, tld: string)
    requires local != [] && mid != [] && tld != []
    requires AllPlain(local) && AllPlain(mid) && AllPlain(tld)
    ensures IsValidEmail(local + ['@'] + (mid + ['.'] + tld))
  {
    var domain := mid + ['.'] + tld;
    DottedDomain(mid, tld);
    AllPlainHasNoAt(local);
    AllPlainHasNoAt(domain);
    SplitAtSep(local, '@', domain);
    SplitNoSep(domain, '@');
  }

  /** A string cut at two positions is the three runs with the two characters
      between them. */
  lemma SliceAround(s: string, i: int, j: int)
    requires 0 <= i < j < |s|
    ensures s == s[..i] + [s[i]] + (s[i + 1..j] + [s[j]] + s[j + 1..])
  {
    assert s == s[..i] + s[i..];
    assert s[i..] == [s[i]] + s[i + 1..];
    assert s[i + 1..] == s[i + 1..j] + [s[j]] + s[j + 1..];
  }

  lemma MatchesIsValidEmail(email: string)
    requires MatchesEmailPattern(email)
    ensures IsValidEmail(email)
  {
    var i, j :| 0 < i && i + 1 < j && j + 1 < |email| && email[i] == '@' && email[j] == '.'
      && AllPlain(email[..i]) && AllPlain(email[i + 1..j]) && AllPlain(email[j + 1..]);
    SliceAround(email, i, j);
    ValidFromRuns(email[..i], email[i + 1..j], email[j + 1..]);
  }

  /** The decision procedure accepts exactly the strings the pattern matches. */
  lemma IsValidEmailMatchesPattern(email: string)
    ensures IsValidEmail(email) <==> MatchesEmailPattern(email)
  {
    if IsValidEmail(email) {
      ValidEmailMatches(email);
    }
    if MatchesEmailPattern(email) {
      MatchesIsValidEmail(email);
    }
  }

  /** `isNotEmpty(value)`: something other than whitespace. */
  function IsNotEmpty(value: string): bool {
    |Trim(value)| > 0
  }

  /** `hasMinLength(value, n)`: at least `n` characters once trimmed. */
  function HasMinLength(value: string, minLength: int): bool {
    |Trim(value)| >= minLength
  }

  /** A value is blank exactly when it is all whitespace, and a minimum length of one
      is the same test as non-blank. */
  lemma BlankIsWhitespace(value: string)
    ensures !IsNotEmpty(value) <==> AllWhitespace(value)
    ensures HasMinLength(value, 1) == IsNotEmpty(value)
  {
    TrimEmptyIff(value);
  }

  /** A valid address is never blank. */
  lemma ValidEmailIsNotEmpty(email: string)
    requires IsValidEmail(email)
    ensures IsNotEmpty(email)
  {
    BlankIsWhitespace(email);
    var parts := Split(email, '@');
    TwoParts(email);
    assert email[0] == parts[0][0];
    assert Plain(parts[0][0]);
  }

  datatype ContactForm = ContactForm(name: string, email: string, subject: string, message: string)

  const NameRequired := "Name is required"
  const EmailRequired := "Email is required"
  const EmailInvalid := "Please enter a valid email address"
  const SubjectRequired := "Subject is required"
  const MessageRequired := "Message is required"
  const MessageTooShort := "Message must be at least 10 characters long"

  /** `validateContactForm(formData)`: one message per failing field, and the form
      is valid exactly when there is none. */
  method ValidateContactForm(form: ContactForm) returns (isValid: bool, errors: map<string, string>)
    ensures errors.Keys <= {"name", "email", "subject", "message"}
    ensures "name" in errors <==> !IsNotEmpty(form.name)
    ensures "name" in errors ==> errors["name"] == NameRequired
    ensures "email" in errors <==> !IsNotEmpty(form.email) || !IsValidEmail(form.email)
    ensures "email" in errors ==>
      errors["email"] == if !IsNotEmpty(form.email) then EmailRequired else EmailInvalid
    ensures "subject" in errors <==> !IsNotEmpty(form.subject)
    ensures "subject" in errors ==> errors["subject"] == SubjectRequired
    ensures "message" in errors <==> !HasMinLength(form.message, 10)
    ensures "message" in errors ==>
      errors["message"] == if !IsNotEmpty(form.message) then MessageRequired else MessageTooShort
    ensures isValid <==> errors == map[]
    ensures isValid <==>
      IsNotEmpty(form.name) && IsValidEmail(form.email) && IsNotEmpty(form.subject) && HasMinLength(form.message, 10)
  {
    errors := map[];
    if !IsNotEmpty(form.name) {
      errors := errors["name" := NameRequired];
    }
    if !IsNotEmpty(form.email) {
      errors := errors["email" := EmailRequired];
    } else if !IsValidEmail(form.email) {
      errors := errors["email" := EmailInvalid];
    }
    if !IsNotEmpty(form.subject) {
      errors := errors["subject" := SubjectRequired];
    }
    if !IsNotEmpty(form.message) {
      errors := errors["message" := MessageRequired];
    } else if !HasMinLength(form.message, 10) {
      errors := errors["message" := MessageTooShort];
    }
    isValid := |errors| == 0;
    if IsValidEmail(form.email) {
      ValidEmailIsNotEmpty(form.email);
    }
    if isValid {
      assert errors == map[];
    } else {
      assert errors.Keys != {};
    }
  }
}
