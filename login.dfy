/** The sign-in form: the e-mail and password rules, when a sign-in is attempted and with
    what, and the message for each error code the sign-in can fail with. */
module Login {
  import opened Common
  import opened JsText
  import opened FormRules

  datatype LoginField = Email | Password

  /** What `signIn` answered: success, or an error carrying `error.code`. */
  datatype SignInOutcome = SignedIn | SignInFailed(code: string)

  function FieldError(email: string, password: string, f: LoginField): Option<string>
  {
    match f
    case Email => EmailError(email)
    case Password => PasswordError(password)
  }

  /** `validateForm`: the e-mail step, then the password step; valid exactly when no key
      was added, which is exactly when the address matches the pattern and the password
      has `length` at least six. */
  method ValidateForm(email: string, password: string) returns (errors: map<LoginField, string>, valid: bool)
    ensures forall f :: f in errors <==> FieldError(email, password, f).Some?
    ensures forall f :: f in errors ==> errors[f] == FieldError(email, password, f).value
    ensures valid <==> errors == map[]
    ensures valid <==> EmailRegexTest(email) && Utf16Length(password) >= MinPasswordLength
  {
    errors := map[];
    errors := AddEmailError(errors, Email, email);
    errors := AddPasswordError(errors, Password, password);
    valid := errors == map[];
    ErrorsHoldEachFieldsMessage(email, password, errors);
    EmailAcceptedIffPatternMatches(email);
    PasswordAcceptedIffLongEnough(password);
  }

  /** The map built by the two steps has a key exactly for each field with a message,
      holding that message; it is empty exactly when neither field has one. */
  lemma ErrorsHoldEachFieldsMessage(email: string, password: string, errors: map<LoginField, string>)
    requires errors == WithError(WithError(map[], Email, EmailError(email)), Password, PasswordError(password))
    ensures forall f :: f in errors <==> FieldError(email, password, f).Some?
    ensures forall f :: f in errors ==> errors[f] == FieldError(email, password, f).value
    ensures errors == map[] <==> EmailError(email).None? && PasswordError(password).None?
  {
    forall f ensures (f in errors <==> FieldError(email, password, f).Some?)
                     && (f in errors ==> errors[f] == FieldError(email, password, f).value) {
      match f
      case Email =>
      case Password =>
    }
    assert (Email in errors) == EmailError(email).Some?;
    assert (Password in errors) == PasswordError(password).Some?;
    if errors != map[] {
      var f :| f in errors;
    }
  }

  /** The message shown when `signIn` fails with `code`. */
  function SignInErrorMessage(code: string): string
  {
    if code == "auth/user-not-found" then "No account found with this email."
    else if code == "auth/wrong-password" then "Incorrect password."
    else if code == "auth/invalid-email" then "Please enter a valid email address."
    else if code == "auth/too-many-requests" then "Too many failed attempts. Please try again later."
    else "Login failed. Please try again."
  }

  /** The four known codes get four different messages, none of them the fallback one,
      and every other code gets the fallback. */
  lemma SignInMessagesTellCodesApart(code: string)
    ensures (code !in {"auth/user-not-found", "auth/wrong-password", "auth/invalid-email", "auth/too-many-requests"})
              == (SignInErrorMessage(code) == "Login failed. Please try again.")
    ensures |{SignInErrorMessage("auth/user-not-found"), SignInErrorMessage("auth/wrong-password"),
              SignInErrorMessage("auth/invalid-email"), SignInErrorMessage("auth/too-many-requests")}| == 4
  {
  }

  /** The sign-in screen's state. */
  class LoginScreen {
    var email: string
    var password: string
    var errors: map<LoginField, string>

    constructor ()
      ensures email == "" && password == "" && errors == map[]
    {
      email, password, errors := "", "", map[];
    }

    /** `handleLogin`: validates; only a valid form signs in, with the trimmed address and
        the password as typed; a failed sign-in reports the message for its code. */
    method HandleLogin(outcome: SignInOutcome) returns (request: Option<(string, string)>, alert: Option<string>)
      modifies this
      ensures email == old(email) && password == old(password)
      ensures forall f :: f in errors <==> FieldError(email, password, f).Some?
      ensures forall f :: f in errors ==> errors[f] == FieldError(email, password, f).value
      ensures request.Some? <==> EmailRegexTest(email) && Utf16Length(password) >= MinPasswordLength
      ensures request.Some? ==> request.value == (Trim(email), password)
      ensures alert.Some? <==> request.Some? && outcome.SignInFailed?
      ensures alert.Some? ==> alert.value == SignInErrorMessage(outcome.code)
    {
      var valid;
      errors, valid := ValidateForm(email, password);
      if !valid {
        return None, None;
      }
      request := Some((Trim(email), password));
      alert := if outcome.SignInFailed? then Some(SignInErrorMessage(outcome.code)) else None;
    }
  }

  /** The address sent to `signIn` passes the same pattern the form tested. */
  lemma SentAddressPassesThePattern(email: string)
    requires EmailRegexTest(email)
    ensures EmailRegexTest(Trim(email))
  {
    EmailTestIgnoresSurroundingSpace(email);
  }
}
