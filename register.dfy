/** The sign-up form: the four field rules, the error map the validation fills in, the
    per-field error clearing while typing, and what a sign-up attempt sends and reports. */
module Register {
  import opened Common
  import opened JsText
  import opened FormRules

  datatype RegisterField = Name | Email | Password | ConfirmPassword

  /** `formData` */
  datatype RegisterForm = RegisterForm(name: string, email: string, password: string, confirmPassword: string)

  /** What `signUp` answered: success, or an error carrying `error.code`. */
  datatype SignUpOutcome = SignedUp | SignUpFailed(code: string)

  /** The name message: blank after `trim`, else a trimmed `length` (UTF-16 code units) below two. */
  function NameError(name: string): Option<string>
  {
    if IsBlank(name) then Some("Full name is required")
    else if Utf16Length(Trim(name)) < 2 then Some("Name must be at least 2 characters")
    else None
  }

  /** The confirmation message: empty, else different from the password. */
  function ConfirmError(password: string, confirmPassword: string): Option<string>
  {
    if confirmPassword == "" then Some("Please confirm your password")
    else if password != confirmPassword then Some("Passwords do not match")
    else None
  }

  /** The one message, if any, that validation gives a field. */
  function FieldError(form: RegisterForm, f: RegisterField): Option<string>
  {
    match f
    case Name => NameError(form.name)
    case Email => EmailError(form.email)
    case Password => PasswordError(form.password)
    case ConfirmPassword => ConfirmError(form.password, form.confirmPassword)
  }

  function Get(form: RegisterForm, f: RegisterField): string
  {
    match f
    case Name => form.name
    case Email => form.email
    case Password => form.password
    case ConfirmPassword => form.confirmPassword
  }

  /** `{ ...prev, [field]: value }` */
  function Set(form: RegisterForm, f: RegisterField, value: string): RegisterForm
  {
    match f
    case Name => form.(name := value)
    case Email => form.(email := value)
    case Password => form.(password := value)
    case ConfirmPassword => form.(confirmPassword := value)
  }

  /** The name step of `validateForm`. */
  method AddNameError(errors: map<RegisterField, string>, name: string) returns (newErrors: map<RegisterField, string>)
    ensures newErrors == WithError(errors, Name, NameError(name))
  {
    newErrors := errors;
    if IsBlank(name) {
      newErrors := newErrors[Name := "Full name is required"];
    } else if Utf16Length(Trim(name)) < 2 {
      newErrors := newErrors[Name := "Name must be at least 2 characters"];
    }
  }

  /** The confirmation step of `validateForm`. */
  method AddConfirmError(errors: map<RegisterField, string>, password: string, confirmPassword: string)
    returns (newErrors: map<RegisterField, string>)
    ensures newErrors == WithError(errors, ConfirmPassword, ConfirmError(password, confirmPassword))
  {
    newErrors := errors;
    if confirmPassword == "" {
      newErrors := newErrors[ConfirmPassword := "Please confirm your password"];
    } else if password != confirmPassword {
      newErrors := newErrors[ConfirmPassword := "Passwords do not match"];
    }
  }

  /** `validateForm`: fills `newErrors` field by field; a field that passes gets no key.
      The form is valid exactly when no key was added, which is exactly when the trimmed
      name has `length` two, the address matches the pattern, the password has `length`
      six and the confirmation repeats it. */
  method ValidateForm(form: RegisterForm) returns (errors: map<RegisterField, string>, valid: bool)
    ensures forall f :: f in errors <==> FieldError(form, f).Some?
    ensures forall f :: f in errors ==> errors[f] == FieldError(form, f).value
    ensures valid <==> errors == map[]
    ensures valid <==> Utf16Length(Trim(form.name)) >= 2 && EmailRegexTest(form.email)
                       && Utf16Length(form.password) >= MinPasswordLength && form.confirmPassword == form.password
  {
    errors := map[];
    errors := AddNameError(errors, form.name);
    errors := AddEmailError(errors, Email, form.email);
    errors := AddPasswordError(errors, Password, form.password);
    errors := AddConfirmError(errors, form.password, form.confirmPassword);
    valid := errors == map[];
    ErrorsHoldEachFieldsMessage(form, errors);
    FormAcceptedIff(form);
  }

  /** The map built by the four steps has a key exactly for each field with a message,
      holding that message, so it is empty exactly when no field has one. */
  lemma ErrorsHoldEachFieldsMessage(form: RegisterForm, errors: map<RegisterField, string>)
    requires errors == WithError(WithError(WithError(WithError(map[],
                         Name, NameError(form.name)),
                         Email, EmailError(form.email)),
                         Password, PasswordError(form.password)),
                         ConfirmPassword, ConfirmError(form.password, form.confirmPassword))
    ensures forall f :: f in errors <==> FieldError(form, f).Some?
    ensures forall f :: f in errors ==> errors[f] == FieldError(form, f).value
    ensures errors == map[] <==> forall f :: FieldError(form, f).None?
  {
    forall f ensures (f in errors <==> FieldError(form, f).Some?)
                     && (f in errors ==> errors[f] == FieldError(form, f).value) {
      match f
      case Name =>
      case Email =>
      case Password =>
      case ConfirmPassword =>
    }
    if errors != map[] {
      var f :| f in errors;
    }
  }

  /** No field has a message exactly when the trimmed name has two characters, the
      address matches the pattern, the password has six characters and the confirmation
      repeats it. */
  lemma FormAcceptedIff(form: RegisterForm)
    ensures (forall f :: FieldError(form, f).None?) <==>
              (Utf16Length(Trim(form.name)) >= 2 && EmailRegexTest(form.email)
               && Utf16Length(form.password) >= MinPasswordLength && form.confirmPassword == form.password)
  {
    EmailAcceptedIffPatternMatches(form.email);
    if Utf16Length(Trim(form.name)) >= 2 {
      assert !IsBlank(form.name);
    }
    assert FieldError(form, Name).None? <==> Utf16Length(Trim(form.name)) >= 2;
    if (forall f :: FieldError(form, f).None?) {
      assert FieldError(form, Name).None? && FieldError(form, Email).None?;
      assert FieldError(form, Password).None? && FieldError(form, ConfirmPassword).None?;
    }
  }

  /** The message shown when `signUp` fails with `code`. */
  function SignUpErrorMessage(code: string): string
  {
    if code == "auth/email-already-in-use" then "An account with this email already exists."
    else if code == "auth/invalid-email" then "Please enter a valid email address."
    else if code == "auth/weak-password" then "Password is too weak. Please choose a stronger password."
    else "Registration failed. Please try again."
  }

  /** The three known codes get three different messages, none of them the fallback one,
      and every other code gets the fallback. */
  lemma SignUpMessagesTellCodesApart(code: string)
    ensures (code !in {"auth/email-already-in-use", "auth/invalid-email", "auth/weak-password"})
              == (SignUpErrorMessage(code) == "Registration failed. Please try again.")
    ensures SignUpErrorMessage("auth/email-already-in-use") != SignUpErrorMessage("auth/invalid-email")
    ensures SignUpErrorMessage("auth/invalid-email") != SignUpErrorMessage("auth/weak-password")
    ensures SignUpErrorMessage("auth/email-already-in-use") != SignUpErrorMessage("auth/weak-password")
  {
  }

  /** The sign-up screen's state. */
  class RegisterScreen {
    var form: RegisterForm
    var errors: map<RegisterField, string>

    constructor ()
      ensures form == RegisterForm("", "", "", "") && errors == map[]
    {
      form := RegisterForm("", "", "", "");
      errors := map[];
    }

    /** `updateFormData`: sets the field and, when that field shows a message, blanks that
        message (the key stays, holding the empty text); nothing else changes. */
    method UpdateFormData(field: RegisterField, value: string)
      modifies this
      ensures form == Set(old(form), field, value)
      ensures errors == if field in old(errors) && old(errors)[field] != "" then old(errors)[field := ""] else old(errors)
    {
      form := Set(form, field, value);
      if field in errors && errors[field] != "" {
        errors := errors[field := ""];
      }
    }

    /** `handleRegister`: validates; when valid, signs up with the trimmed address and the
        password as typed, and on failure reports the message for the error code. */
    method HandleRegister(outcome: SignUpOutcome) returns (request: Option<(string, string)>, alert: Option<string>)
      modifies this
      ensures form == old(form)
      ensures forall f :: f in errors <==> FieldError(form, f).Some?
      ensures forall f :: f in errors ==> errors[f] == FieldError(form, f).value
      ensures request.Some? <==> errors == map[]
      ensures request.Some? ==> request.value == (Trim(form.email), form.password)
      ensures alert.Some? <==> request.Some? && outcome.SignUpFailed?
      ensures alert.Some? ==> alert.value == SignUpErrorMessage(outcome.code)
    {
      var valid;
      errors, valid := ValidateForm(form);
      if !valid {
        return None, None;
      }
      request := Some((Trim(form.email), form.password));
      alert := if outcome.SignUpFailed? then Some(SignUpErrorMessage(outcome.code)) else None;
    }
  }

  /** A single emoji is a name of `length` two, so it draws no message. */
  lemma OneEmojiIsAName()
    ensures |"\U{1F600}"| == 1
    ensures NameError("\U{1F600}").None?
  {
    assert !IsSpace('\U{1F600}');
  }

  /** Only the edited field's value and message are touched by typing. */
  lemma SetChangesOnlyThatField(form: RegisterForm, field: RegisterField, value: string, g: RegisterField)
    ensures Get(Set(form, field, value), g) == if g == field then value else Get(form, g)
  {
  }
}
