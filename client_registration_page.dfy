/**
 * The client registration page: six rules (no password confirmation), the
 * whole form posted as the request body, and a success view on an ok answer.
 */
module ClientRegistrationPage {
  import opened Wrappers
  import opened Text
  import opened Patterns
  import opened FieldStore
  import opened Rules
  import opened Submission

  const Fields: Schema := map[
    "fullName" := TextInput, "email" := TextInput, "password" := TextInput,
    "companyName" := TextInput, "phoneNumber" := TextInput, "agreedToTerms" := Checkbox]

  const InitialForm: FormData := Initial(Fields)

  const CompanyNameRequired := "Company name is required"

  /** The keys `validateForm` may report on: every input. */
  const Validated: set<string> := {"fullName", "email", "password", "companyName", "phoneNumber", "agreedToTerms"}

  const ClientFlow := Flow(
    "http://localhost:8080/api/auth/register/client",
    "Registration failed. Please try again.",
    "Could not connect to the server. Please ensure the backend is running.",
    ShowSuccess)

  /** What `validateForm` returns: the failing rules' messages, keyed by field, in the order checked. */
  function Errors(form: FormData): map<string, string> {
    var errors := Put(map[], "fullName", Required(TextOf(form, "fullName"), FullNameRequired));
    var errors := Put(errors, "email", EmailRule(TextOf(form, "email")));
    var errors := Put(errors, "password", RegistrationPasswordRule(TextOf(form, "password")));
    var errors := Put(errors, "companyName", Required(TextOf(form, "companyName"), CompanyNameRequired));
    var errors := Put(errors, "phoneNumber", Required(TextOf(form, "phoneNumber"), PhoneRequired));
    Put(errors, "agreedToTerms", TermsRule(FlagOf(form, "agreedToTerms")))
  }

  /** Every rule passes. */
  ghost predicate Acceptable(form: FormData) {
    && !AllSpace(TextOf(form, "fullName"))
    && MatchesEmailPattern(TextOf(form, "email"))
    && Utf16Length(TextOf(form, "password")) >= MinPasswordLength
    && !AllSpace(TextOf(form, "companyName"))
    && !AllSpace(TextOf(form, "phoneNumber"))
    && FlagOf(form, "agreedToTerms")
  }

  /** The error map is empty exactly when every rule passes. */
  lemma ErrorsEmptyIff(form: FormData)
    ensures Errors(form) == map[] <==> Acceptable(form)
  {
    var e := Errors(form);
    if e == map[] {
      assert "fullName" !in e && "email" !in e && "password" !in e;
      assert "companyName" !in e && "phoneNumber" !in e && "agreedToTerms" !in e;
    }
  }

  /** Only the form's own inputs are reported on; in particular there is no confirmation rule. */
  lemma ErrorKeys(form: FormData)
    ensures Errors(form).Keys <= Validated
    ensures "confirmPassword" !in Errors(form)
  {
  }

  /** Company name is required after trimming. */
  lemma CompanyNameRule(form: FormData)
    ensures "companyName" in Errors(form) <==> AllSpace(TextOf(form, "companyName"))
    ensures "companyName" in Errors(form) ==> Errors(form)["companyName"] == CompanyNameRequired
  {
  }

  /** Phone number is required after trimming. */
  lemma PhoneNumberRule(form: FormData)
    ensures "phoneNumber" in Errors(form) <==> AllSpace(TextOf(form, "phoneNumber"))
    ensures "phoneNumber" in Errors(form) ==> Errors(form)["phoneNumber"] == PhoneRequired
  {
  }

  /** The terms box must be ticked. */
  lemma AgreedToTermsRule(form: FormData)
    ensures "agreedToTerms" in Errors(form) <==> !FlagOf(form, "agreedToTerms")
    ensures "agreedToTerms" in Errors(form) ==> Errors(form)["agreedToTerms"] == TermsRequired
  {
  }

  /** The password entry is the registration password rule's verdict. */
  lemma PasswordEntry(form: FormData)
    ensures var p := RegistrationPasswordRule(TextOf(form, "password"));
      && ("password" in Errors(form) <==> p.Some?)
      && ("password" in Errors(form) ==> Errors(form)["password"] == p.value)
  {
    var e1 := Put(map[], "fullName", Required(TextOf(form, "fullName"), FullNameRequired));
    var e2 := Put(e1, "email", EmailRule(TextOf(form, "email")));
    var p := RegistrationPasswordRule(TextOf(form, "password"));
    var e3 := Put(e2, "password", p);
    var e4 := Put(e3, "companyName", Required(TextOf(form, "companyName"), CompanyNameRequired));
    var e5 := Put(e4, "phoneNumber", Required(TextOf(form, "phoneNumber"), PhoneRequired));
    assert Errors(form) == Put(e5, "agreedToTerms", TermsRule(FlagOf(form, "agreedToTerms")));
    PutElsewhere(e1, "email", EmailRule(TextOf(form, "email")), "password");
    PutHere(e2, "password", p);
    PutElsewhere(e3, "companyName", Required(TextOf(form, "companyName"), CompanyNameRequired), "password");
    PutElsewhere(e4, "phoneNumber", Required(TextOf(form, "phoneNumber"), PhoneRequired), "password");
    PutElsewhere(e5, "agreedToTerms", TermsRule(FlagOf(form, "agreedToTerms")), "password");
  }

  /** The password needs eight UTF-16 code units: "short" is reported as too short. */
  lemma ShortPasswordRejected(form: FormData)
    requires TextOf(form, "password") == "short"
    ensures "password" in Errors(form) && Errors(form)["password"] == PasswordTooShort
  {
    PasswordEntry(form);
    Utf16LengthOfBmp("short");
  }

  /** `validateForm`, filling the error dictionary one check after another. */
  method ValidateForm(form: FormData) returns (newErrors: map<string, string>)
    ensures newErrors == Errors(form)
  {
    newErrors := map[];
    newErrors := CheckRequired(newErrors, "fullName", TextOf(form, "fullName"), FullNameRequired);
    newErrors := CheckEmail(newErrors, TextOf(form, "email"));
    newErrors := CheckRegistrationPassword(newErrors, TextOf(form, "password"));
    newErrors := CheckRequired(newErrors, "companyName", TextOf(form, "companyName"), CompanyNameRequired);
    newErrors := CheckRequired(newErrors, "phoneNumber", TextOf(form, "phoneNumber"), PhoneRequired);
    newErrors := CheckTerms(newErrors, FlagOf(form, "agreedToTerms"));
  }

  /** The fetch-based `handleSubmit` of this page; the body is the whole form. */
  function Submit(before: Status, storage: map<string, string>, form: FormData, outcome: Outcome): Effect {
    Resolve(ClientFlow, before, storage, Errors(form), form, None, outcome)
  }

  /** The request, when sent, carries every input of the form, the terms flag included. */
  lemma BodyIsWholeForm(before: Status, storage: map<string, string>, form: FormData, outcome: Outcome)
    requires Conforms(form, Fields)
    ensures var e := Submit(before, storage, form, outcome);
      e.request.Some? ==> e.request.value.body.Keys == Fields.Keys && e.request.value.body == form
  {
    RequestIffValid(ClientFlow, before, storage, Errors(form), form, None, outcome);
  }

  /** An ok answer stores `token` and `userRole`, shows the success view and resets `isSubmitting`. */
  lemma OkShowsSuccess(before: Status, storage: map<string, string>, form: FormData, token: string, role: string)
    requires Errors(form) == map[]
    ensures var e := Submit(before, storage, form, Ok(token, role));
      && e.status == Status(map[], false, true) && e.navigation == None
      && e.storage == storage[TokenKey := token][RoleKey := role]
  {
  }

  /** A refusal or a throw shows one `submit` message, resets `isSubmitting` and stores nothing. */
  lemma FailureMessages(before: Status, storage: map<string, string>, form: FormData, outcome: Outcome)
    requires Errors(form) == map[] && !outcome.Ok?
    ensures var e := Submit(before, storage, form, outcome);
      && !e.status.isSubmitting && e.storage == storage
      && e.status.registrationSuccess == before.registrationSuccess
      && e.status.errors == map[SubmitKey := if outcome.Threw? then ClientFlow.unreachable
                                             else MessageOr(outcome.message, ClientFlow.fallback)]
  {
  }

  /** The page's component state, its `localStorage` and its handlers. */
  class Component {
    var formData: FormData
    var errors: map<string, string>
    var isSubmitting: bool
    var registrationSuccess: bool
    const storage: Storage

    /** `formData` keeps the page's inputs and their kinds. */
    ghost predicate Valid()
      reads this
    {
      Conforms(formData, Fields)
    }

    constructor(storage: Storage)
      ensures Valid() && formData == InitialForm && errors == map[] && !isSubmitting && !registrationSuccess
      ensures this.storage == storage
    {
      formData := InitialForm;
      errors := map[];
      isSubmitting := false;
      registrationSuccess := false;
      this.storage := storage;
    }

    /** `handleChange` for an event from one of the page's inputs. */
    method HandleChange(e: ChangeEvent)
      requires Valid() && Fits(e, Fields)
      modifies this
      ensures Valid()
      ensures formData == ApplyChange(old(formData), e)
      ensures errors == old(errors) && isSubmitting == old(isSubmitting)
      ensures registrationSuccess == old(registrationSuccess)
    {
      ChangeConforms(formData, Fields, e);
      formData := ApplyChange(formData, e);
    }

    /**
     * The fetch-based `handleSubmit`, with the outcome of its `fetch` as an
     * input; it returns the request it sent. The submit button is disabled
     * while a request is pending.
     */
    method HandleSubmit(outcome: Outcome) returns (request: Option<Request>)
      requires Valid() && !isSubmitting
      modifies this, storage
      ensures Valid() && formData == old(formData)
      ensures var e := Submit(Status(old(errors), old(isSubmitting), old(registrationSuccess)), old(storage.items), formData, outcome);
        && errors == e.status.errors && isSubmitting == e.status.isSubmitting
        && registrationSuccess == e.status.registrationSuccess
        && storage.items == e.storage && request == e.request
    {
      ghost var before := Status(errors, isSubmitting, registrationSuccess);
      ghost var items := storage.items;
      var formErrors := ValidateForm(formData);
      if formErrors != map[] {
        errors := formErrors;
        return None;
      }
      Begin();
      request := Some(Request(ClientFlow.path, formData));
      Finish(outcome);
      ResolveThroughPending(ClientFlow, before, items, formData, None, outcome);
    }

    /** `setIsSubmitting(true)` and `setErrors({})`: the page enters its pending state. */
    method Begin()
      requires Valid()
      modifies this
      ensures Valid() && formData == old(formData)
      ensures errors == map[] && isSubmitting
      ensures Status(errors, isSubmitting, registrationSuccess)
           == Pending(Status(old(errors), old(isSubmitting), old(registrationSuccess)))
    {
      isSubmitting := true;
      errors := map[];
    }

    /** Once the request is in flight: its outcome, from the pending state, as `Settle` says. */
    method Finish(outcome: Outcome)
      requires Valid() && isSubmitting
      modifies this, storage
      ensures Valid() && formData == old(formData)
      ensures var e := Settle(ClientFlow, Status(old(errors), old(isSubmitting), old(registrationSuccess)),
                              old(storage.items), None, outcome);
        && errors == e.status.errors && isSubmitting == e.status.isSubmitting
        && registrationSuccess == e.status.registrationSuccess && storage.items == e.storage
    {
      match outcome {
        case Ok(token, role) =>
          storage.SetItem(TokenKey, token);
          storage.SetItem(RoleKey, role);
          registrationSuccess := true;
          isSubmitting := false;
        case NotOk(message) =>
          errors := map[SubmitKey := MessageOr(message, ClientFlow.fallback)];
          isSubmitting := false;
        case Threw =>
          errors := map[SubmitKey := ClientFlow.unreachable];
          isSubmitting := false;
      }
    }
  }
}
