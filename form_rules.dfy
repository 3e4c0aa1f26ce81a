/** The field rules the sign-up and sign-in forms share: an e-mail address must be
    non-blank and pass `/\S+@\S+\.\S+/`, a password must be non-empty and at least six
    UTF-16 code units long (JavaScript's `length`). Each rule yields at most one message per field. */
module FormRules {
  import opened Common
  import opened JsText

  /** The shortest password either form accepts. */
  const MinPasswordLength := 6

  /** The e-mail message: blank after `trim`, else not matching the pattern (which is
      tested on the untrimmed text). */
  function EmailError(email: string): Option<string>
  {
    if IsBlank(email) then Some("Email is required")
    else if !EmailRegexTest(email) then Some("Please enter a valid email")
    else None
  }

  /** The password message: empty (not trimmed), else too short. */
  function PasswordError(password: string): Option<string>
  {
    if password == "" then Some("Password is required")
    else if Utf16Length(password) < MinPasswordLength then Some("Password must be at least 6 characters")
    else None
  }

  /** `newErrors[key] = message` when there is a message; no key otherwise. */
  function WithError<K>(errors: map<K, string>, key: K, e: Option<string>): map<K, string>
  {
    if e.Some? then errors[key := e.value] else errors
  }

  /** The e-mail step of `validateForm`, as written in both forms. */
  method AddEmailError<K>(errors: map<K, string>, key: K, email: string) returns (newErrors: map<K, string>)
    ensures newErrors == WithError(errors, key, EmailError(email))
  {
    newErrors := errors;
    if IsBlank(email) {
      newErrors := newErrors[key := "Email is required"];
    } else if !EmailRegexTest(email) {
      newErrors := newErrors[key := "Please enter a valid email"];
    }
  }

  /** The password step of `validateForm`, as written in both forms. */
  method AddPasswordError<K>(errors: map<K, string>, key: K, password: string) returns (newErrors: map<K, string>)
    ensures newErrors == WithError(errors, key, PasswordError(password))
  {
    newErrors := errors;
    if password == "" {
      newErrors := newErrors[key := "Password is required"];
    } else if Utf16Length(password) < MinPasswordLength {
      newErrors := newErrors[key := "Password must be at least 6 characters"];
    }
  }

  /** An address is accepted exactly when the pattern matches it; the blank check only
      picks the message. */
  lemma EmailAcceptedIffPatternMatches(email: string)
    ensures EmailError(email).None? <==> EmailRegexTest(email)
  {
    if EmailRegexTest(email) {
      EmailTestImpliesNotBlank(email);
    }
  }

  /** The address the forms send is the trimmed one, and it passes the pattern exactly
      when the typed one does. */
  lemma SentEmailIsAcceptedToo(email: string)
    ensures EmailError(email).None? <==> EmailError(Trim(email)).None?
  {
    EmailAcceptedIffPatternMatches(email);
    EmailAcceptedIffPatternMatches(Trim(email));
    EmailTestIgnoresSurroundingSpace(email);
  }

  /** A password is accepted exactly when its `length` is at least six. */
  lemma PasswordAcceptedIffLongEnough(password: string)
    ensures PasswordError(password).None? <==> Utf16Length(password) >= MinPasswordLength
  {
  }

  /** A password of spaces is not trimmed: six spaces pass. */
  lemma SpacesArePassword()
    ensures PasswordError("      ").None?
  {
  }

  /** Length is counted in UTF-16 code units: three emoji have `length` six and pass,
      though they are only three code points. */
  lemma ThreeEmojiArePassword()
    ensures |"\U{1F600}\U{1F600}\U{1F600}"| == 3
    ensures PasswordError("\U{1F600}\U{1F600}\U{1F600}").None?
  {
  }
}
