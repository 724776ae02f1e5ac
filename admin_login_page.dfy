/**
 * The admin login page: the same two rules and body as the freelancer login,
 * posted to the same endpoint; an ok answer stores the credentials, never
 * the remembered email, and asks for the admin dashboard.
 */
module AdminLoginPage {
  import opened Wrappers
  import opened Text
  import opened Patterns
  import opened FieldStore
  import opened Rules
  import opened Submission
  import FreelancerLoginPage

  const Fields: Schema := map["email" := TextInput, "password" := TextInput, "rememberMe" := Checkbox]

  const InitialForm: FormData := Initial(Fields)

  /** The keys `validateForm` may report on. */
  const Validated: set<string> := {"email", "password"}

  const Dashboard := "/admin-dashboard"

  const LoginFlow := Flow(
    "http://localhost:8080/api/auth/login",
    "Invalid admin credentials. Please try again.",
    "The server is not responding. Please try again later.",
    NavigateTo(Dashboard))

  /** What `validateForm` returns: the failing rules' messages, keyed by field. */
  function Errors(form: FormData): map<string, string> {
    var errors := Put(map[], "email", EmailRule(TextOf(form, "email")));
    Put(errors, "password", LoginPasswordRule(TextOf(form, "password")))
  }

  /** A form the server will be asked about: an email the pattern finds and a non-empty password. */
  ghost predicate Acceptable(form: FormData) {
    MatchesEmailPattern(TextOf(form, "email")) && TextOf(form, "password") != []
  }

  /** The validator holds a form back exactly when some rule fails. */
  lemma ErrorsEmptyIff(form: FormData)
    ensures Errors(form) == map[] <==> Acceptable(form)
  {
    var e := Errors(form);
    if e == map[] {
      assert "email" !in e && "password" !in e;
    }
  }

  /** `validateForm`, filling the error dictionary one check after another. */
  method ValidateForm(form: FormData) returns (newErrors: map<string, string>)
    ensures newErrors == Errors(form)
  {
    newErrors := map[];
    newErrors := CheckEmail(newErrors, TextOf(form, "email"));
    newErrors := CheckLoginPassword(newErrors, TextOf(form, "password"));
  }

  /** The login body: `{ email, password }`, without the remember-me flag. */
  function Credentials(form: FormData): (body: FormData)
    ensures body.Keys == {"email", "password"}
    ensures "rememberMe" !in body
  {
    map["email" := Text(TextOf(form, "email")), "password" := Text(TextOf(form, "password"))]
  }

  /** The fetch-based `handleSubmit` of this page. */
  function Submit(before: Status, storage: map<string, string>, form: FormData, outcome: Outcome): Effect {
    Resolve(LoginFlow, before, storage, Errors(form), Credentials(form), None, outcome)
  }

  /** `rememberedEmail` is never written, whatever the checkbox and the outcome. */
  lemma NeverRemembers(before: Status, storage: map<string, string>, form: FormData, outcome: Outcome)
    ensures var e := Submit(before, storage, form, outcome);
      && (RememberedEmailKey in e.storage <==> RememberedEmailKey in storage)
      && (RememberedEmailKey in storage ==> e.storage[RememberedEmailKey] == storage[RememberedEmailKey])
  {
    StorageOnlyOnOk(LoginFlow, before, storage, Errors(form), Credentials(form), None, outcome);
  }

  /** The validator has exactly the freelancer login's rules. */
  lemma SameRulesAsFreelancerLogin(form: FormData)
    ensures Errors(form) == FreelancerLoginPage.Errors(form)
  {
  }

  /** The role in the answer is not looked at: every ok answer leads to the admin dashboard. */
  lemma RoleNotChecked(before: Status, storage: map<string, string>, form: FormData, token: string, role: string)
    requires Errors(form) == map[]
    ensures Submit(before, storage, form, Ok(token, role)).navigation == Some(Dashboard)
  {
  }

  /** An ok answer leads to the dashboard with `isSubmitting` left set. */
  lemma OkNavigates(before: Status, storage: map<string, string>, form: FormData, token: string, role: string)
    requires Errors(form) == map[]
    ensures var e := Submit(before, storage, form, Ok(token, role));
      && e.navigation == Some(Dashboard) && e.status.isSubmitting && e.status.errors == map[]
      && e.storage[TokenKey] == token && e.storage[RoleKey] == role
  {
  }

  /** A refusal or a throw shows one `submit` message, resets `isSubmitting` and stores nothing. */
  lemma FailureMessages(before: Status, storage: map<string, string>, form: FormData, outcome: Outcome)
    requires Errors(form) == map[] && !outcome.Ok?
    ensures var e := Submit(before, storage, form, outcome);
      && !e.status.isSubmitting && e.storage == storage && e.navigation == None
      && e.status.errors == map[SubmitKey := if outcome.Threw? then LoginFlow.unreachable
                                             else MessageOr(outcome.message, LoginFlow.fallback)]
  {
  }

  /** An email the pattern does not find is reported and stops the submission before any request. */
  lemma BadEmailHalts(before: Status, storage: map<string, string>, form: FormData, outcome: Outcome)
    requires !AllSpace(TextOf(form, "email")) && !MatchesEmailPattern(TextOf(form, "email"))
    ensures var e := Submit(before, storage, form, outcome);
      && e.request == None && e.storage == storage && e.navigation == None
      && e.status.errors == Errors(form) && e.status.errors["email"] == EmailInvalid
  {
    assert "email" in Errors(form);
    ValidationFailureHalts(LoginFlow, before, storage, Errors(form), Credentials(form), None, outcome);
  }

  /** The page's component state, its `localStorage` and its handlers. */
  class Component {
    var formData: FormData
    var errors: map<string, string>
    var isSubmitting: bool
    const storage: Storage

    /** `formData` keeps the page's inputs and their kinds. */
    ghost predicate Valid()
      reads this
    {
      Conforms(formData, Fields)
    }

    constructor(storage: Storage)
      ensures Valid() && formData == InitialForm && errors == map[] && !isSubmitting
      ensures this.storage == storage
    {
      formData := InitialForm;
      errors := map[];
      isSubmitting := false;
      this.storage := storage;
    }

    /** `handleChange` for an event from one of the page's inputs. */
    method HandleChange(e: ChangeEvent)
      requires Valid() && Fits(e, Fields)
      modifies this
      ensures Valid()
      ensures formData == ApplyChange(old(formData), e)
      ensures errors == old(errors) && isSubmitting == old(isSubmitting)
    {
      ChangeConforms(formData, Fields, e);
      formData := ApplyChange(formData, e);
    }

    /**
     * The fetch-based `handleSubmit`, with the outcome of its `fetch` as an
     * input; it returns the request it sent and the route it asked for.
     * The submit button is disabled while a request is pending.
     */
    method HandleSubmit(outcome: Outcome) returns (request: Option<Request>, navigation: Option<string>)
      requires Valid() && !isSubmitting
      modifies this, storage
      ensures Valid() && formData == old(formData)
      ensures var e := Submit(Status(old(errors), old(isSubmitting), false), old(storage.items), formData, outcome);
        && errors == e.status.errors && isSubmitting == e.status.isSubmitting
        && storage.items == e.storage && request == e.request && navigation == e.navigation
    {
      ghost var before := Status(errors, isSubmitting, false);
      ghost var items := storage.items;
      var formErrors := ValidateForm(formData);
      if formErrors != map[] {
        errors := formErrors;
        return None, None;
      }
      Begin();
      request := Some(Request(LoginFlow.path, map["email" := formData["email"], "password" := formData["password"]]));
      navigation := Finish(outcome);
      ResolveThroughPending(LoginFlow, before, items, Credentials(formData), None, outcome);
    }

    /** `setIsSubmitting(true)` and `setErrors({})`: the page enters its pending state. */
    method Begin()
      requires Valid()
      modifies this
      ensures Valid() && formData == old(formData)
      ensures errors == map[] && isSubmitting
      ensures Status(errors, isSubmitting, false) == Pending(Status(old(errors), old(isSubmitting), false))
    {
      isSubmitting := true;
      errors := map[];
    }

    /**
     * Once the request is in flight: its outcome, from the pending state, as
     * `Settle` says; it returns the route it asked for.
     */
    method Finish(outcome: Outcome) returns (navigation: Option<string>)
      requires Valid() && isSubmitting
      modifies this, storage
      ensures Valid() && formData == old(formData)
      ensures var e := Settle(LoginFlow, Status(old(errors), old(isSubmitting), false), old(storage.items),
                              None, outcome);
        && errors == e.status.errors && isSubmitting == e.status.isSubmitting
        && storage.items == e.storage && navigation == e.navigation
    {
      navigation := None;
      match outcome {
        case Ok(token, role) =>
          storage.SetItem(TokenKey, token);
          storage.SetItem(RoleKey, role);
          navigation := Some(Dashboard);
        case NotOk(message) =>
          errors := map[SubmitKey := MessageOr(message, LoginFlow.fallback)];
          isSubmitting := false;
        case Threw =>
          errors := map[SubmitKey := LoginFlow.unreachable];
          isSubmitting := false;
      }
    }
  }
}
