/**
 * The admin registration page: seven rules, of which the admin code and the
 * department are only required to be non-blank; a delay-based `handleSubmit`
 * wired to the form and a fetch-based one that posts the whole form.
 */
module AdminRegistrationPage {
  import opened Wrappers
  import opened Text
  import opened Patterns
  import opened FieldStore
  import opened Rules
  import opened Submission

  const Fields: Schema := map[
    "fullName" := TextInput, "email" := TextInput, "password" := TextInput,
    "confirmPassword" := TextInput, "adminCode" := TextInput, "department" := TextInput,
    "agreedToTerms" := Checkbox]

  const InitialForm: FormData := Initial(Fields)

  const AdminCodeRequired := "Admin registration code is required"
  const DepartmentRequired := "Department is required"

  /** The keys `validateForm` may report on: every input. */
  const Validated: set<string> := {
    "fullName", "email", "password", "confirmPassword", "adminCode", "department", "agreedToTerms"}

  const AdminFlow := Flow(
    "http://localhost:8080/api/auth/register/admin",
    "Registration failed. Check your Admin Code.",
    "The backend server is unreachable. Please verify it is running on port 8080.",
    ShowSuccess)

  /** What `validateForm` returns: the failing rules' messages, keyed by field, in the order checked. */
  function Errors(form: FormData): map<string, string> {
    var errors := Put(map[], "fullName", Required(TextOf(form, "fullName"), FullNameRequired));
    var errors := Put(errors, "email", EmailRule(TextOf(form, "email")));
    var errors := Put(errors, "password", RegistrationPasswordRule(TextOf(form, "password")));
    var errors := Put(errors, "confirmPassword", ConfirmRule(TextOf(form, "password"), TextOf(form, "confirmPassword")));
    var errors := Put(errors, "adminCode", Required(TextOf(form, "adminCode"), AdminCodeRequired));
    var errors := Put(errors, "department", Required(TextOf(form, "department"), DepartmentRequired));
    Put(errors, "agreedToTerms", TermsRule(FlagOf(form, "agreedToTerms")))
  }

  /** Every rule passes. */
  ghost predicate Acceptable(form: FormData) {
    && !AllSpace(TextOf(form, "fullName"))
    && MatchesEmailPattern(TextOf(form, "email"))
    && Utf16Length(TextOf(form, "password")) >= MinPasswordLength
    && TextOf(form, "confirmPassword") != [] && TextOf(form, "confirmPassword") == TextOf(form, "password")
    && !AllSpace(TextOf(form, "adminCode"))
    && !AllSpace(TextOf(form, "department"))
    && FlagOf(form, "agreedToTerms")
  }

  /** The error map is empty exactly when every rule passes. */
  lemma ErrorsEmptyIff(form: FormData)
    ensures Errors(form) == map[] <==> Acceptable(form)
  {
    var e := Errors(form);
    if e == map[] {
      assert "fullName" !in e && "email" !in e && "password" !in e && "confirmPassword" !in e;
      assert "adminCode" !in e && "department" !in e && "agreedToTerms" !in e;
    }
  }

  /** Only the form's own inputs are reported on, one message each. */
  lemma ErrorKeys(form: FormData)
    ensures Errors(form).Keys <= Validated
  {
  }

  /** The admin code is only required to be non-blank; which code it is does not matter here. */
  lemma AdminCodeValueIgnored(form: FormData, code: string, other: string)
    requires !AllSpace(code) && !AllSpace(other)
    ensures Errors(form["adminCode" := Text(code)]) == Errors(form["adminCode" := Text(other)])
  {
    StoreKeepsOthers(form, "adminCode", Text(code), "fullName");
    StoreKeepsOthers(form, "adminCode", Text(code), "email");
    StoreKeepsOthers(form, "adminCode", Text(code), "password");
    StoreKeepsOthers(form, "adminCode", Text(code), "confirmPassword");
    StoreKeepsOthers(form, "adminCode", Text(code), "department");
    StoreKeepsOthers(form, "adminCode", Text(code), "agreedToTerms");
    StoreKeepsOthers(form, "adminCode", Text(other), "fullName");
    StoreKeepsOthers(form, "adminCode", Text(other), "email");
    StoreKeepsOthers(form, "adminCode", Text(other), "password");
    StoreKeepsOthers(form, "adminCode", Text(other), "confirmPassword");
    StoreKeepsOthers(form, "adminCode", Text(other), "department");
    StoreKeepsOthers(form, "adminCode", Text(other), "agreedToTerms");
    TextOfStored(form, "adminCode", code);
    TextOfStored(form, "adminCode", other);
  }

  /** A blank department is reported, with its own message. */
  lemma DepartmentRequiredRule(form: FormData)
    ensures "department" in Errors(form) <==> AllSpace(TextOf(form, "department"))
    ensures "department" in Errors(form) ==> Errors(form)["department"] == DepartmentRequired
  {
  }

  /** The password entry is the registration password rule's verdict, the same rule as on the freelancer page. */
  lemma PasswordEntry(form: FormData)
    ensures var p := RegistrationPasswordRule(TextOf(form, "password"));
      && ("password" in Errors(form) <==> p.Some?)
      && ("password" in Errors(form) ==> Errors(form)["password"] == p.value)
  {
    var e1 := Put(map[], "fullName", Required(TextOf(form, "fullName"), FullNameRequired));
    var e2 := Put(e1, "email", EmailRule(TextOf(form, "email")));
    var p := RegistrationPasswordRule(TextOf(form, "password"));
    var e3 := Put(e2, "password", p);
    var e4 := Put(e3, "confirmPassword", ConfirmRule(TextOf(form, "password"), TextOf(form, "confirmPassword")));
    var e5 := Put(e4, "adminCode", Required(TextOf(form, "adminCode"), AdminCodeRequired));
    var e6 := Put(e5, "department", Required(TextOf(form, "department"), DepartmentRequired));
    assert Errors(form) == Put(e6, "agreedToTerms", TermsRule(FlagOf(form, "agreedToTerms")));
    PutElsewhere(e1, "email", EmailRule(TextOf(form, "email")), "password");
    PutHere(e2, "password", p);
    PutElsewhere(e3, "confirmPassword", ConfirmRule(TextOf(form, "password"), TextOf(form, "confirmPassword")), "password");
    PutElsewhere(e4, "adminCode", Required(TextOf(form, "adminCode"), AdminCodeRequired), "password");
    PutElsewhere(e5, "department", Required(TextOf(form, "department"), DepartmentRequired), "password");
    PutElsewhere(e6, "agreedToTerms", TermsRule(FlagOf(form, "agreedToTerms")), "password");
  }

  /** The confirmation entry is the confirmation rule's verdict: required, then exact equality. */
  lemma ConfirmEntry(form: FormData)
    ensures var c := ConfirmRule(TextOf(form, "password"), TextOf(form, "confirmPassword"));
      && ("confirmPassword" in Errors(form) <==> c.Some?)
      && ("confirmPassword" in Errors(form) ==> Errors(form)["confirmPassword"] == c.value)
  {
  }

  /** `validateForm`, filling the error dictionary one check after another. */
  method ValidateForm(form: FormData) returns (newErrors: map<string, string>)
    ensures newErrors == Errors(form)
  {
    newErrors := map[];
    newErrors := CheckRequired(newErrors, "fullName", TextOf(form, "fullName"), FullNameRequired);
    newErrors := CheckEmail(newErrors, TextOf(form, "email"));
    newErrors := CheckRegistrationPassword(newErrors, TextOf(form, "password"));
    newErrors := CheckConfirm(newErrors, TextOf(form, "password"), TextOf(form, "confirmPassword"));
    newErrors := CheckRequired(newErrors, "adminCode", TextOf(form, "adminCode"), AdminCodeRequired);
    newErrors := CheckRequired(newErrors, "department", TextOf(form, "department"), DepartmentRequired);
    newErrors := CheckTerms(newErrors, FlagOf(form, "agreedToTerms"));
  }

  /** The fetch-based `handleSubmit` of this page; the body is the whole form. */
  function Submit(before: Status, storage: map<string, string>, form: FormData, outcome: Outcome): Effect {
    Resolve(AdminFlow, before, storage, Errors(form), form, None, outcome)
  }

  /** The delay-based `handleSubmit` wired to the form. */
  function SimulatedSubmit(before: Status, form: FormData): Status {
    ResolveSimulated(before, Errors(form))
  }

  /** A validation failure replaces `errors`, sends nothing and leaves `isSubmitting` and storage alone. */
  lemma FailureHalts(before: Status, storage: map<string, string>, form: FormData, outcome: Outcome)
    requires Errors(form) != map[]
    ensures var e := Submit(before, storage, form, outcome);
      && e.status == before.(errors := Errors(form)) && e.request == None && e.storage == storage
  {
    ValidationFailureHalts(AdminFlow, before, storage, Errors(form), form, None, outcome);
  }

  /** A valid form is posted whole, the admin code included, to the admin endpoint. */
  lemma BodyIsWholeForm(before: Status, storage: map<string, string>, form: FormData, outcome: Outcome)
    requires Errors(form) == map[]
    ensures Submit(before, storage, form, outcome).request == Some(Request(AdminFlow.path, form))
  {
  }

  /** An ok answer stores `token` and `userRole`, shows the success view and resets `isSubmitting`. */
  lemma OkShowsSuccess(before: Status, storage: map<string, string>, form: FormData, token: string, role: string)
    requires Errors(form) == map[]
    ensures var e := Submit(before, storage, form, Ok(token, role));
      && e.status == Status(map[], false, true) && e.navigation == None
      && e.storage == storage[TokenKey := token][RoleKey := role]
  {
  }

  /** A refusal or a throw shows one `submit` message, resets `isSubmitting` and stores nothing. */
  lemma FailureMessages(before: Status, storage: map<string, string>, form: FormData, outcome: Outcome)
    requires Errors(form) == map[] && !outcome.Ok?
    ensures var e := Submit(before, storage, form, outcome);
      && !e.status.isSubmitting && e.storage == storage
      && e.status.registrationSuccess == before.registrationSuccess
      && e.status.errors == map[SubmitKey := if outcome.Threw? then AdminFlow.unreachable
                                             else MessageOr(outcome.message, AdminFlow.fallback)]
  {
  }

  /** The delay-based submission ends like the fetch-based one answered ok, with no storage write. */
  lemma SimulatedIsOk(before: Status, storage: map<string, string>, form: FormData, token: string, role: string)
    ensures SimulatedSubmit(before, form) == Submit(before, storage, form, Ok(token, role)).status
  {
    SimulatedIsOkWithoutStorage(AdminFlow, before, storage, Errors(form), form, token, role);
  }

  /** The page's component state, its `localStorage` and its handlers. */
  class Component {
    var formData: FormData
    var errors: map<string, string>
    var isSubmitting: bool
    var registrationSuccess: bool
    const storage: Storage

    /** `formData` keeps the page's inputs and their kinds. */
    ghost predicate Valid()
      reads this
    {
      Conforms(formData, Fields)
    }

    constructor(storage: Storage)
      ensures Valid() && formData == InitialForm && errors == map[] && !isSubmitting && !registrationSuccess
      ensures this.storage == storage
    {
      formData := InitialForm;
      errors := map[];
      isSubmitting := false;
      registrationSuccess := false;
      this.storage := storage;
    }

    /** `handleChange` for an event from one of the page's inputs (the department is a select). */
    method HandleChange(e: ChangeEvent)
      requires Valid() && Fits(e, Fields)
      modifies this
      ensures Valid()
      ensures formData == ApplyChange(old(formData), e)
      ensures errors == old(errors) && isSubmitting == old(isSubmitting)
      ensures registrationSuccess == old(registrationSuccess)
    {
      ChangeConforms(formData, Fields, e);
      formData := ApplyChange(formData, e);
    }

    /** The delay-based `handleSubmit` wired to the form. */
    method HandleSimulatedSubmit()
      requires Valid() && !isSubmitting
      modifies this
      ensures Valid() && formData == old(formData)
      ensures Status(errors, isSubmitting, registrationSuccess)
           == SimulatedSubmit(Status(old(errors), old(isSubmitting), old(registrationSuccess)), formData)
    {
      ghost var before := Status(errors, isSubmitting, registrationSuccess);
      var formErrors := ValidateForm(formData);
      if formErrors != map[] {
        errors := formErrors;
        return;
      }
      Begin();
      FinishSimulated();
      SimulatedThroughPending(before);
    }

    /**
     * The fetch-based `handleSubmit`, with the outcome of its `fetch` as an
     * input; it returns the request it sent. The submit button is disabled
     * while a request is pending.
     */
    method HandleSubmit(outcome: Outcome) returns (request: Option<Request>)
      requires Valid() && !isSubmitting
      modifies this, storage
      ensures Valid() && formData == old(formData)
      ensures var e := Submit(Status(old(errors), old(isSubmitting), old(registrationSuccess)), old(storage.items), formData, outcome);
        && errors == e.status.errors && isSubmitting == e.status.isSubmitting
        && registrationSuccess == e.status.registrationSuccess
        && storage.items == e.storage && request == e.request
    {
      ghost var before := Status(errors, isSubmitting, registrationSuccess);
      ghost var items := storage.items;
      var formErrors := ValidateForm(formData);
      if formErrors != map[] {
        errors := formErrors;
        return None;
      }
      Begin();
      request := Some(Request(AdminFlow.path, formData));
      Finish(outcome);
      ResolveThroughPending(AdminFlow, before, items, formData, None, outcome);
    }

    /** `setIsSubmitting(true)` and `setErrors({})`: the page enters its pending state. */
    method Begin()
      requires Valid()
      modifies this
      ensures Valid() && formData == old(formData)
      ensures errors == map[] && isSubmitting
      ensures Status(errors, isSubmitting, registrationSuccess)
           == Pending(Status(old(errors), old(isSubmitting), old(registrationSuccess)))
    {
      isSubmitting := true;
      errors := map[];
    }

    /** After the delay, from the pending state: the success message is shown and `isSubmitting` reset. */
    method FinishSimulated()
      requires Valid() && isSubmitting
      modifies this
      ensures Valid() && formData == old(formData)
      ensures Status(errors, isSubmitting, registrationSuccess)
           == SettleSimulated(Status(old(errors), old(isSubmitting), old(registrationSuccess)))
    {
      registrationSuccess := true;
      isSubmitting := false;
    }

    /** Once the request is in flight: its outcome, from the pending state, as `Settle` says. */
    method Finish(outcome: Outcome)
      requires Valid() && isSubmitting
      modifies this, storage
      ensures Valid() && formData == old(formData)
      ensures var e := Settle(AdminFlow, Status(old(errors), old(isSubmitting), old(registrationSuccess)),
                              old(storage.items), None, outcome);
        && errors == e.status.errors && isSubmitting == e.status.isSubmitting
        && registrationSuccess == e.status.registrationSuccess && storage.items == e.storage
    {
      match outcome {
        case Ok(token, role) =>
          storage.SetItem(TokenKey, token);
          storage.SetItem(RoleKey, role);
          registrationSuccess := true;
          isSubmitting := false;
        case NotOk(message) =>
          errors := map[SubmitKey := MessageOr(message, AdminFlow.fallback)];
          isSubmitting := false;
        case Threw =>
          errors := map[SubmitKey := AdminFlow.unreachable];
          isSubmitting := false;
      }
    }
  }
}
