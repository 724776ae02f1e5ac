/**
 * The per-field rules that the pages' `validateForm` functions share, each
 * giving at most one message: a field's "required" test runs before its
 * shape test.
 */
module Rules {
  import opened Wrappers
  import opened Text
  import opened Patterns

  const FullNameRequired := "Full name is required"
  const EmailRequired := "Email is required"
  const EmailInvalid := "Email is invalid"
  const PasswordRequired := "Password is required"
  const PasswordTooShort := "Password must be at least 8 characters"
  const ConfirmRequired := "Please confirm your password"
  const ConfirmMismatch := "Passwords do not match"
  const PhoneRequired := "Phone number is required"
  const TermsRequired := "You must agree to the terms and conditions"

  /** The minimum password length, in UTF-16 code units. */
  const MinPasswordLength := 8

  /**
   * `if (!value.trim()) newErrors[key] = message`: fails exactly when the
   * value trims to nothing, that is, when it is all white space.
   */
  function Required(value: string, message: string): (r: Option<string>)
    ensures r.Some? <==> Trim(value) == []
    ensures r.Some? <==> AllSpace(value)
    ensures r.Some? ==> r.value == message
  {
    TrimFacts(value);
    if Trim(value) == [] then Some(message) else None
  }

  /**
   * The email rule of every page: "required" when the value trims to
   * nothing, else "invalid" when no part of it matches the pattern.
   */
  function EmailRule(email: string): (r: Option<string>)
    ensures r == Some(EmailRequired) <==> Trim(email) == []
    ensures r == Some(EmailRequired) <==> AllSpace(email)
    ensures r == Some(EmailInvalid) <==> !AllSpace(email) && !MatchesEmailPattern(email)
    ensures r == None <==> MatchesEmailPattern(email)
  {
    EmailShapeIsPattern(email);
    TrimFacts(email);
    if Trim(email) == [] then BlankIsNoEmail(email); Some(EmailRequired)
    else if !EmailShape(email) then Some(EmailInvalid)
    else None
  }

  /**
   * The password rule of the registration pages: "required" when empty (no
   * trim), else "too short" below eight UTF-16 code units.
   */
  function RegistrationPasswordRule(password: string): (r: Option<string>)
    ensures r == Some(PasswordRequired) <==> password == []
    ensures r == Some(PasswordTooShort) <==> password != [] && Utf16Length(password) < MinPasswordLength
    ensures r == None <==> Utf16Length(password) >= MinPasswordLength
  {
    if password == [] then Some(PasswordRequired)
    else if Utf16Length(password) < MinPasswordLength then Some(PasswordTooShort)
    else None
  }

  /** The password rule of the login pages: required, with no minimum length. */
  function LoginPasswordRule(password: string): (r: Option<string>)
    ensures r.Some? <==> password == []
    ensures r.Some? ==> r.value == PasswordRequired
  {
    if password == [] then Some(PasswordRequired) else None
  }

  /** Confirmation is required (no trim), else it must equal the password exactly. */
  function ConfirmRule(password: string, confirm: string): (r: Option<string>)
    ensures r == Some(ConfirmRequired) <==> confirm == []
    ensures r == Some(ConfirmMismatch) <==> confirm != [] && confirm != password
    ensures r == None <==> confirm != [] && confirm == password
  {
    if confirm == [] then Some(ConfirmRequired)
    else if password != confirm then Some(ConfirmMismatch)
    else None
  }

  /** The terms checkbox must be ticked. */
  function TermsRule(agreed: bool): (r: Option<string>)
    ensures r.Some? <==> !agreed
    ensures r.Some? ==> r.value == TermsRequired
  {
    if !agreed then Some(TermsRequired) else None
  }

  /** `newErrors[key] = message` when the rule failed with that message; no change when it passed. */
  function Put(errors: map<string, string>, key: string, message: Option<string>): map<string, string> {
    if message.Some? then errors[key := message.value] else errors
  }

  /** A step sets its own key exactly when its rule failed, to the rule's message. */
  lemma PutHere(errors: map<string, string>, key: string, message: Option<string>)
    ensures key in Put(errors, key, message) <==> message.Some? || key in errors
    ensures message.Some? ==> Put(errors, key, message)[key] == message.value
  {
  }

  /** A step leaves every other key as it was. */
  lemma PutElsewhere(errors: map<string, string>, key: string, message: Option<string>, other: string)
    requires other != key
    ensures other in Put(errors, key, message) <==> other in errors
    ensures other in errors ==> Put(errors, key, message)[other] == errors[other]
  {
  }

  /** `if (!value.trim()) newErrors[key] = message`, as a step on the error dictionary. */
  method CheckRequired(errors: map<string, string>, key: string, value: string, message: string)
    returns (r: map<string, string>)
    ensures r == Put(errors, key, Required(value, message))
  {
    r := errors;
    if AllSpace(value) {
      r := r[key := message];
    }
  }

  /** The email step: required first, then the pattern. */
  method CheckEmail(errors: map<string, string>, email: string) returns (r: map<string, string>)
    ensures r == Put(errors, "email", EmailRule(email))
  {
    r := errors;
    if AllSpace(email) {
      r := r["email" := EmailRequired];
    } else if !EmailShape(email) {
      r := r["email" := EmailInvalid];
    }
  }

  /** The registration password step: required first, then the minimum length. */
  method CheckRegistrationPassword(errors: map<string, string>, password: string) returns (r: map<string, string>)
    ensures r == Put(errors, "password", RegistrationPasswordRule(password))
  {
    r := errors;
    if password == [] {
      r := r["password" := PasswordRequired];
    } else if Utf16Length(password) < MinPasswordLength {
      r := r["password" := PasswordTooShort];
    }
  }

  /** The login password step: required only. */
  method CheckLoginPassword(errors: map<string, string>, password: string) returns (r: map<string, string>)
    ensures r == Put(errors, "password", LoginPasswordRule(password))
  {
    r := errors;
    if password == [] {
      r := r["password" := PasswordRequired];
    }
  }

  /** The confirmation step: required first, then equality with the password. */
  method CheckConfirm(errors: map<string, string>, password: string, confirm: string) returns (r: map<string, string>)
    ensures r == Put(errors, "confirmPassword", ConfirmRule(password, confirm))
  {
    r := errors;
    if confirm == [] {
      r := r["confirmPassword" := ConfirmRequired];
    } else if password != confirm {
      r := r["confirmPassword" := ConfirmMismatch];
    }
  }

  /** The terms step. */
  method CheckTerms(errors: map<string, string>, agreed: bool) returns (r: map<string, string>)
    ensures r == Put(errors, "agreedToTerms", TermsRule(agreed))
  {
    r := errors;
    if !agreed {
      r := r["agreedToTerms" := TermsRequired];
    }
  }
}
