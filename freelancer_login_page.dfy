/**
 * The freelancer login page: two rules (email, password present), a
 * remember-me checkbox that is never sent, and a submission that stores the
 * credentials and asks for the freelancer dashboard.
 */
module FreelancerLoginPage {
  import opened Wrappers
  import opened Text
  import opened Patterns
  import opened FieldStore
  import opened Rules
  import opened Submission

  const Fields: Schema := map["email" := TextInput, "password" := TextInput, "rememberMe" := Checkbox]

  const InitialForm: FormData := Initial(Fields)

  /** The keys `validateForm` may report on. */
  const Validated: set<string> := {"email", "password"}

  const Dashboard := "/freelancer-dashboard"

  const LoginFlow := Flow(
    "http://localhost:8080/api/auth/login",
    "Invalid email or password. Please try again.",
    "Server is currently offline. Please try again later.",
    NavigateTo(Dashboard))

  /** What `validateForm` returns: the failing rules' messages, keyed by field. */
  function Errors(form: FormData): map<string, string> {
    var errors := Put(map[], "email", EmailRule(TextOf(form, "email")));
    Put(errors, "password", LoginPasswordRule(TextOf(form, "password")))
  }

  /** A form the server will be asked about: an email the pattern finds and a non-empty password. */
  ghost predicate Acceptable(form: FormData) {
    MatchesEmailPattern(TextOf(form, "email")) && TextOf(form, "password") != []
  }

  /** The validator holds a form back exactly when some rule fails. */
  lemma ErrorsEmptyIff(form: FormData)
    ensures Errors(form) == map[] <==> Acceptable(form)
  {
    var e := Errors(form);
    if e == map[] {
      assert "email" !in e && "password" !in e;
    }
  }

  /** Only email and password are checked, and with no minimum length for the password. */
  lemma OnlyTwoRules(form: FormData)
    ensures Errors(form).Keys <= {"email", "password"}
    ensures "password" in Errors(form) <==> TextOf(form, "password") == []
    ensures "password" in Errors(form) ==> Errors(form)["password"] == PasswordRequired
  {
  }

  /** `validateForm`, filling the error dictionary one check after another. */
  method ValidateForm(form: FormData) returns (newErrors: map<string, string>)
    ensures newErrors == Errors(form)
  {
    newErrors := map[];
    newErrors := CheckEmail(newErrors, TextOf(form, "email"));
    newErrors := CheckLoginPassword(newErrors, TextOf(form, "password"));
  }

  /** The login body: `{ email, password }`, without the remember-me flag. */
  function Credentials(form: FormData): (body: FormData)
    ensures body.Keys == {"email", "password"}
    ensures "rememberMe" !in body
  {
    map["email" := Text(TextOf(form, "email")), "password" := Text(TextOf(form, "password"))]
  }

  /** The email to remember: the form's email when the box is ticked, else none. */
  function Remembered(form: FormData): Option<string> {
    if FlagOf(form, "rememberMe") then Some(TextOf(form, "email")) else None
  }

  /** The fetch-based `handleSubmit` of this page. */
  function Submit(before: Status, storage: map<string, string>, form: FormData, outcome: Outcome): Effect {
    Resolve(LoginFlow, before, storage, Errors(form), Credentials(form), Remembered(form), outcome)
  }

  /**
   * An ok answer to a valid form stores `rememberedEmail` exactly when the
   * box is ticked, and the stored value is then the form's email.
   */
  lemma RememberMe(before: Status, storage: map<string, string>, form: FormData, token: string, role: string)
    requires Errors(form) == map[]
    ensures var e := Submit(before, storage, form, Ok(token, role));
      && (FlagOf(form, "rememberMe") ==> e.storage[RememberedEmailKey] == TextOf(form, "email"))
      && (!FlagOf(form, "rememberMe") ==>
            (RememberedEmailKey in e.storage <==> RememberedEmailKey in storage)
            && (RememberedEmailKey in storage ==> e.storage[RememberedEmailKey] == storage[RememberedEmailKey]))
  {
  }

  /** An ok answer leads to the dashboard with `isSubmitting` left set. */
  lemma OkNavigates(before: Status, storage: map<string, string>, form: FormData, token: string, role: string)
    requires Errors(form) == map[]
    ensures var e := Submit(before, storage, form, Ok(token, role));
      && e.navigation == Some(Dashboard) && e.status.isSubmitting && e.status.errors == map[]
      && e.storage[TokenKey] == token && e.storage[RoleKey] == role
  {
  }

  /** A refusal or a throw shows one `submit` message, resets `isSubmitting` and stores nothing. */
  lemma FailureMessages(before: Status, storage: map<string, string>, form: FormData, outcome: Outcome)
    requires Errors(form) == map[] && !outcome.Ok?
    ensures var e := Submit(before, storage, form, outcome);
      && !e.status.isSubmitting && e.storage == storage && e.navigation == None
      && e.status.errors == map[SubmitKey := if outcome.Threw? then LoginFlow.unreachable
                                             else MessageOr(outcome.message, LoginFlow.fallback)]
  {
  }

  /** An email the pattern does not find is reported and stops the submission before any request. */
  lemma BadEmailHalts(before: Status, storage: map<string, string>, form: FormData, outcome: Outcome)
    requires !AllSpace(TextOf(form, "email")) && !MatchesEmailPattern(TextOf(form, "email"))
    ensures var e := Submit(before, storage, form, outcome);
      && e.request == None && e.storage == storage && e.navigation == None
      && e.status.errors == Errors(form) && e.status.errors["email"] == EmailInvalid
  {
    assert "email" in Errors(form);
    ValidationFailureHalts(LoginFlow, before, storage, Errors(form), Credentials(form), Remembered(form), outcome);
  }

  /** "user@example" has no dot after its `@`, so it is invalid and the password rule still runs. */
  lemma DotlessEmailInvalid()
    ensures var form := InitialForm["email" := Text("user@example")];
      Errors(form) == map["email" := EmailInvalid, "password" := PasswordRequired]
  {
    var form := InitialForm["email" := Text("user@example")];
    assert TextOf(form, "email") == "user@example";
    assert !AllSpace("user@example") by { assert !IsSpace("user@example"[0]); }
    NoDotNoEmail("user@example");
    assert Errors(form).Keys == {"email", "password"};
  }

  /** A short password is no obstacle to logging in. */
  lemma ShortPasswordAccepted()
    ensures var form := InitialForm["email" := Text("a@b.co")]["password" := Text("short")];
      Errors(form) == map[]
  {
    var form := InitialForm["email" := Text("a@b.co")]["password" := Text("short")];
    assert EmailAnchor("a@b.co", 1, 3);
    assert TextOf(form, "email") == "a@b.co";
    assert "email" !in Errors(form);
  }

  /** The page's component state, its `localStorage` and its handlers. */
  class Component {
    var formData: FormData
    var errors: map<string, string>
    var isSubmitting: bool
    const storage: Storage

    /** `formData` keeps the page's inputs and their kinds. */
    ghost predicate Valid()
      reads this
    {
      Conforms(formData, Fields)
    }

    constructor(storage: Storage)
      ensures Valid() && formData == InitialForm && errors == map[] && !isSubmitting
      ensures this.storage == storage
    {
      formData := InitialForm;
      errors := map[];
      isSubmitting := false;
      this.storage := storage;
    }

    /** `handleChange` for an event from one of the page's inputs. */
    method HandleChange(e: ChangeEvent)
      requires Valid() && Fits(e, Fields)
      modifies this
      ensures Valid()
      ensures formData == ApplyChange(old(formData), e)
      ensures errors == old(errors) && isSubmitting == old(isSubmitting)
    {
      ChangeConforms(formData, Fields, e);
      formData := ApplyChange(formData, e);
    }

    /**
     * The fetch-based `handleSubmit`, with the outcome of its `fetch` as an
     * input; it returns the request it sent and the route it asked for.
     * The submit button is disabled while a request is pending.
     */
    method HandleSubmit(outcome: Outcome) returns (request: Option<Request>, navigation: Option<string>)
      requires Valid() && !isSubmitting
      modifies this, storage
      ensures Valid() && formData == old(formData)
      ensures var e := Submit(Status(old(errors), old(isSubmitting), false), old(storage.items), formData, outcome);
        && errors == e.status.errors && isSubmitting == e.status.isSubmitting
        && storage.items == e.storage && request == e.request && navigation == e.navigation
    {
      ghost var before := Status(errors, isSubmitting, false);
      ghost var items := storage.items;
      var formErrors := ValidateForm(formData);
      if formErrors != map[] {
        errors := formErrors;
        return None, None;
      }
      Begin();
      request := Some(Request(LoginFlow.path, map["email" := formData["email"], "password" := formData["password"]]));
      navigation := Finish(outcome);
      ResolveThroughPending(LoginFlow, before, items, Credentials(formData), Remembered(formData), outcome);
    }

    /** `setIsSubmitting(true)` and `setErrors({})`: the page enters its pending state. */
    method Begin()
      requires Valid()
      modifies this
      ensures Valid() && formData == old(formData)
      ensures errors == map[] && isSubmitting
      ensures Status(errors, isSubmitting, false) == Pending(Status(old(errors), old(isSubmitting), false))
    {
      isSubmitting := true;
      errors := map[];
    }

    /**
     * Once the request is in flight: its outcome, from the pending state, as
     * `Settle` says; it returns the route it asked for.
     */
    method Finish(outcome: Outcome) returns (navigation: Option<string>)
      requires Valid() && isSubmitting
      modifies this, storage
      ensures Valid() && formData == old(formData)
      ensures var e := Settle(LoginFlow, Status(old(errors), old(isSubmitting), false), old(storage.items),
                              Remembered(formData), outcome);
        && errors == e.status.errors && isSubmitting == e.status.isSubmitting
        && storage.items == e.storage && navigation == e.navigation
    {
      navigation := None;
      match outcome {
        case Ok(token, role) =>
          storage.SetItem(TokenKey, token);
          storage.SetItem(RoleKey, role);
          if formData["rememberMe"].checked {
            storage.SetItem(RememberedEmailKey, formData["email"].text);
          }
          navigation := Some(Dashboard);
        case NotOk(message) =>
          errors := map[SubmitKey := MessageOr(message, LoginFlow.fallback)];
          isSubmitting := false;
        case Threw =>
          errors := map[SubmitKey := LoginFlow.unreachable];
          isSubmitting := false;
      }
    }
  }
}
