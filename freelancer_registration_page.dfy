/**
 * The freelancer registration page: nine rules over ten inputs (the bio is
 * never checked), a skills list kept beside the skills text, and the
 * delay-based `handleSubmit` wired to the form.
 */
module FreelancerRegistrationPage {
  import opened Wrappers
  import opened Text
  import opened Patterns
  import opened FieldStore
  import opened Rules
  import opened Skills
  import opened Submission

  const Fields: Schema := map[
    "fullName" := TextInput, "email" := TextInput, "password" := TextInput,
    "confirmPassword" := TextInput, "professionalTitle" := TextInput, "phoneNumber" := TextInput,
    "skills" := TextInput, "portfolioUrl" := TextInput, "bio" := TextInput, "agreedToTerms" := Checkbox]

  const InitialForm: FormData := Initial(Fields)

  const TitleRequired := "Professional title is required"
  const SkillsRequired := "Please add at least one skill"
  const SkillsTooFew := "Please add at least 3 skills"
  const PortfolioInvalid := "Please enter a valid URL (http:// or https://)"

  /** The number of skills a registration needs, duplicates counted. */
  const MinSkills := 3

  /** The keys `validateForm` may report on: every input but the bio. */
  const Validated: set<string> := {
    "fullName", "email", "password", "confirmPassword", "professionalTitle",
    "phoneNumber", "skills", "portfolioUrl", "agreedToTerms"}

  /**
   * The skills rule: "at least one" when the text trims to nothing, else
   * "at least 3" when the list (not the text) has fewer than three entries.
   */
  function SkillsRule(text: string, count: nat): (r: Option<string>)
    ensures r == Some(SkillsRequired) <==> Trim(text) == []
    ensures r == Some(SkillsRequired) <==> AllSpace(text)
    ensures r == Some(SkillsTooFew) <==> Trim(text) != [] && count < MinSkills
    ensures r == None <==> Trim(text) != [] && count >= MinSkills
  {
    TrimFacts(text);
    if Trim(text) == [] then Some(SkillsRequired)
    else if count < MinSkills then Some(SkillsTooFew)
    else None
  }

  /** The portfolio rule: an empty URL is fine, anything else must start with a scheme and one more character. */
  function PortfolioRule(url: string): (r: Option<string>)
    ensures r.Some? <==> url != [] && !PortfolioShape(url)
    ensures r.Some? ==> r.value == PortfolioInvalid
  {
    if url != [] && !PortfolioShape(url) then Some(PortfolioInvalid) else None
  }

  /** What `validateForm` returns for a form and the page's current skills list. */
  function Errors(form: FormData, skills: seq<string>): map<string, string> {
    var errors := Put(map[], "fullName", Required(TextOf(form, "fullName"), FullNameRequired));
    var errors := Put(errors, "email", EmailRule(TextOf(form, "email")));
    var errors := Put(errors, "password", RegistrationPasswordRule(TextOf(form, "password")));
    var errors := Put(errors, "confirmPassword", ConfirmRule(TextOf(form, "password"), TextOf(form, "confirmPassword")));
    var errors := Put(errors, "professionalTitle", Required(TextOf(form, "professionalTitle"), TitleRequired));
    var errors := Put(errors, "phoneNumber", Required(TextOf(form, "phoneNumber"), PhoneRequired));
    var errors := Put(errors, "skills", SkillsRule(TextOf(form, "skills"), |skills|));
    var errors := Put(errors, "portfolioUrl", PortfolioRule(TextOf(form, "portfolioUrl")));
    Put(errors, "agreedToTerms", TermsRule(FlagOf(form, "agreedToTerms")))
  }

  /** Every rule passes. */
  ghost predicate Acceptable(form: FormData, skills: seq<string>) {
    && !AllSpace(TextOf(form, "fullName"))
    && MatchesEmailPattern(TextOf(form, "email"))
    && Utf16Length(TextOf(form, "password")) >= MinPasswordLength
    && TextOf(form, "confirmPassword") != [] && TextOf(form, "confirmPassword") == TextOf(form, "password")
    && !AllSpace(TextOf(form, "professionalTitle"))
    && !AllSpace(TextOf(form, "phoneNumber"))
    && !AllSpace(TextOf(form, "skills")) && |skills| >= MinSkills
    && (TextOf(form, "portfolioUrl") == [] || PortfolioShape(TextOf(form, "portfolioUrl")))
    && FlagOf(form, "agreedToTerms")
  }

  /** The error map is empty exactly when every rule passes. */
  lemma ErrorsEmptyIff(form: FormData, skills: seq<string>)
    ensures Errors(form, skills) == map[] <==> Acceptable(form, skills)
  {
    var e := Errors(form, skills);
    if e == map[] {
      assert "fullName" !in e && "email" !in e && "password" !in e && "confirmPassword" !in e;
      assert "professionalTitle" !in e && "phoneNumber" !in e && "skills" !in e;
      assert "portfolioUrl" !in e && "agreedToTerms" !in e;
    }
  }

  /** Only the validated inputs are reported on; the bio never is. */
  lemma ErrorKeys(form: FormData, skills: seq<string>)
    ensures Errors(form, skills).Keys <= Validated
    ensures "bio" !in Errors(form, skills)
  {
  }

  /** The bio has no influence on validation. */
  lemma BioIgnored(form: FormData, skills: seq<string>, bio: string)
    ensures Errors(form["bio" := Text(bio)], skills) == Errors(form, skills)
  {
    var v := Text(bio);
    StoreKeepsOthers(form, "bio", v, "fullName");
    StoreKeepsOthers(form, "bio", v, "email");
    StoreKeepsOthers(form, "bio", v, "password");
    StoreKeepsOthers(form, "bio", v, "confirmPassword");
    StoreKeepsOthers(form, "bio", v, "professionalTitle");
    StoreKeepsOthers(form, "bio", v, "phoneNumber");
    StoreKeepsOthers(form, "bio", v, "skills");
    StoreKeepsOthers(form, "bio", v, "portfolioUrl");
    StoreKeepsOthers(form, "bio", v, "agreedToTerms");
  }

  /** The skills entry of the error map is the skills rule's verdict. */
  lemma SkillsEntry(form: FormData, skills: seq<string>)
    ensures var r := SkillsRule(TextOf(form, "skills"), |skills|);
      && ("skills" in Errors(form, skills) <==> r.Some?)
      && ("skills" in Errors(form, skills) ==> Errors(form, skills)["skills"] == r.value)
  {
    var e1 := Put(map[], "fullName", Required(TextOf(form, "fullName"), FullNameRequired));
    var e2 := Put(e1, "email", EmailRule(TextOf(form, "email")));
    var e3 := Put(e2, "password", RegistrationPasswordRule(TextOf(form, "password")));
    var e4 := Put(e3, "confirmPassword", ConfirmRule(TextOf(form, "password"), TextOf(form, "confirmPassword")));
    var e5 := Put(e4, "professionalTitle", Required(TextOf(form, "professionalTitle"), TitleRequired));
    var e6 := Put(e5, "phoneNumber", Required(TextOf(form, "phoneNumber"), PhoneRequired));
    var r := SkillsRule(TextOf(form, "skills"), |skills|);
    var e7 := Put(e6, "skills", r);
    var e8 := Put(e7, "portfolioUrl", PortfolioRule(TextOf(form, "portfolioUrl")));
    assert Errors(form, skills) == Put(e8, "agreedToTerms", TermsRule(FlagOf(form, "agreedToTerms")));
    assert "skills" !in e6;
    PutHere(e6, "skills", r);
    PutElsewhere(e7, "portfolioUrl", PortfolioRule(TextOf(form, "portfolioUrl")), "skills");
    PutElsewhere(e8, "agreedToTerms", TermsRule(FlagOf(form, "agreedToTerms")), "skills");
  }

  /**
   * With the list parsed from the text, the skills rule fails exactly when
   * fewer than three entries parse: text that trims to nothing parses to none.
   */
  lemma SkillsErrorIffFewEntries(form: FormData)
    ensures var text := TextOf(form, "skills");
      && ("skills" in Errors(form, Parse(text)) <==> |Parse(text)| < MinSkills)
      && ("skills" in Errors(form, Parse(text)) ==>
            Errors(form, Parse(text))["skills"] == if AllSpace(text) then SkillsRequired else SkillsTooFew)
  {
    var text := TextOf(form, "skills");
    SkillsEntry(form, Parse(text));
    if AllSpace(text) {
      ParseOfBlank(text);
    }
  }

  /** Repeated skills count: "React, React, Node" is enough for the skills rule. */
  lemma DuplicateSkillsCount(form: FormData)
    requires TextOf(form, "skills") == "React, React, Node"
    ensures "skills" !in Errors(form, Parse(TextOf(form, "skills")))
  {
    DuplicatesKept();
    SkillsEntry(form, Parse(TextOf(form, "skills")));
    assert !IsSpace("React, React, Node"[0]);
  }

  /** The portfolio URL is optional: left empty, it is never reported. */
  lemma EmptyPortfolioAccepted(form: FormData, skills: seq<string>)
    requires TextOf(form, "portfolioUrl") == []
    ensures "portfolioUrl" !in Errors(form, skills)
  {
  }

  /** `validateForm`, filling the error dictionary one check after another. */
  method ValidateForm(form: FormData, skills: seq<string>) returns (newErrors: map<string, string>)
    ensures newErrors == Errors(form, skills)
  {
    newErrors := map[];
    newErrors := CheckRequired(newErrors, "fullName", TextOf(form, "fullName"), FullNameRequired);
    newErrors := CheckEmail(newErrors, TextOf(form, "email"));
    newErrors := CheckRegistrationPassword(newErrors, TextOf(form, "password"));
    newErrors := CheckConfirm(newErrors, TextOf(form, "password"), TextOf(form, "confirmPassword"));
    newErrors := CheckRequired(newErrors, "professionalTitle", TextOf(form, "professionalTitle"), TitleRequired);
    newErrors := CheckRequired(newErrors, "phoneNumber", TextOf(form, "phoneNumber"), PhoneRequired);
    newErrors := CheckSkills(newErrors, TextOf(form, "skills"), |skills|);
    newErrors := CheckPortfolio(newErrors, TextOf(form, "portfolioUrl"));
    newErrors := CheckTerms(newErrors, FlagOf(form, "agreedToTerms"));
  }

  /** The skills step: text first, then the number of list entries. */
  method CheckSkills(errors: map<string, string>, text: string, count: nat) returns (r: map<string, string>)
    ensures r == Put(errors, "skills", SkillsRule(text, count))
  {
    r := errors;
    if AllSpace(text) {
      r := r["skills" := SkillsRequired];
    } else if count < MinSkills {
      r := r["skills" := SkillsTooFew];
    }
  }

  /** The portfolio step. */
  method CheckPortfolio(errors: map<string, string>, url: string) returns (r: map<string, string>)
    ensures r == Put(errors, "portfolioUrl", PortfolioRule(url))
  {
    r := errors;
    if url != [] && !PortfolioShape(url) {
      r := r["portfolioUrl" := PortfolioInvalid];
    }
  }

  /** Writing a well-formed list back as the skills text keeps the form conforming and in step with the list. */
  lemma StoreRendered(form: FormData, list: seq<string>)
    requires Conforms(form, Fields) && AllWellFormed(list)
    ensures var f := form["skills" := Text(Render(list))];
      Conforms(f, Fields) && Parse(TextOf(f, "skills")) == list
  {
    SetTextConforms(form, Fields, "skills", Render(list));
    TextOfStored(form, "skills", Render(list));
    ParseRender(list);
  }

  /** Appending a new well-formed skill to the synced list and rewriting the text keeps the two in step. */
  lemma AppendInSync(form: FormData, list: seq<string>, skill: string)
    requires Conforms(form, Fields) && list == Parse(TextOf(form, "skills"))
    requires WellFormed(skill) && skill !in list
    ensures var f := form["skills" := Text(Render(list + [skill]))];
      Conforms(f, Fields) && Parse(TextOf(f, "skills")) == list + [skill]
  {
    ParseWellFormed(TextOf(form, "skills"));
    AddKeepsSync(list, skill);
    StoreRendered(form, list + [skill]);
  }

  /** Removing every occurrence of a skill from the synced list and rewriting the text keeps the two in step. */
  lemma RemoveInSync(form: FormData, list: seq<string>, skill: string)
    requires Conforms(form, Fields) && list == Parse(TextOf(form, "skills"))
    ensures var f := form["skills" := Text(Render(RemoveAll(list, skill)))];
      Conforms(f, Fields) && Parse(TextOf(f, "skills")) == RemoveAll(list, skill)
  {
    ParseWellFormed(TextOf(form, "skills"));
    RemoveKeepsSync(list, skill);
    StoreRendered(form, RemoveAll(list, skill));
  }

  /** Typed text is stored verbatim and the list is its parse. */
  lemma TypedInSync(form: FormData, value: string)
    requires Conforms(form, Fields)
    ensures var f := form["skills" := Text(value)];
      Conforms(f, Fields) && Parse(TextOf(f, "skills")) == Parse(value)
  {
    SetTextConforms(form, Fields, "skills", value);
    TextOfStored(form, "skills", value);
  }

  /** The page's component state and its handlers. */
  class Component {
    var formData: FormData
    var errors: map<string, string>
    var isSubmitting: bool
    var registrationSuccess: bool
    var skillsList: seq<string>

    /** `formData` keeps the page's inputs, and the skills list is the parse of the skills text. */
    ghost predicate Valid()
      reads this
    {
      Conforms(formData, Fields) && skillsList == Parse(TextOf(formData, "skills"))
    }

    constructor()
      ensures Valid() && formData == InitialForm && skillsList == []
      ensures errors == map[] && !isSubmitting && !registrationSuccess
    {
      formData := InitialForm;
      errors := map[];
      isSubmitting := false;
      registrationSuccess := false;
      skillsList := [];
      assert TextOf(InitialForm, "skills") == "";
      ParseOfBlank("");
    }

    /** `handleChange`, wired to every input except the skills text. */
    method HandleChange(e: ChangeEvent)
      requires Valid() && Fits(e, Fields) && e.name != "skills"
      modifies this
      ensures Valid()
      ensures formData == ApplyChange(old(formData), e) && skillsList == old(skillsList)
      ensures errors == old(errors) && isSubmitting == old(isSubmitting)
      ensures registrationSuccess == old(registrationSuccess)
    {
      ChangeConforms(formData, Fields, e);
      ChangeKeepsOtherText(formData, e, "skills");
      formData := ApplyChange(formData, e);
    }

    /** `handleSkillsChange`: the text is stored verbatim and the list parsed from it. */
    method HandleSkillsChange(value: string)
      requires Valid()
      modifies this
      ensures Valid()
      ensures formData == old(formData)["skills" := Text(value)] && skillsList == Parse(value)
      ensures errors == old(errors) && isSubmitting == old(isSubmitting)
      ensures registrationSuccess == old(registrationSuccess)
    {
      var f := formData["skills" := Text(value)];
      TypedInSync(formData, value);
      skillsList := Parse(value);
      formData := f;
    }

    /**
     * `addSkill`, offered for the popular skills: nothing happens when the
     * skill is listed; otherwise it is appended and the text rewritten.
     */
    method AddSkill(skill: string)
      requires Valid() && skill in PopularSkills
      modifies this
      ensures Valid()
      ensures skillsList == Add(old(skillsList), skill)
      ensures skill in old(skillsList) ==> formData == old(formData)
      ensures skill !in old(skillsList) ==> formData == old(formData)["skills" := Text(Render(skillsList))]
      ensures errors == old(errors) && isSubmitting == old(isSubmitting)
      ensures registrationSuccess == old(registrationSuccess)
    {
      if skill !in skillsList {
        PopularSkillWellFormed(skill);
        AppendSkill(skill);
      }
    }

    /** The branch of `addSkill` that changes something: append, then rewrite the text. */
    method AppendSkill(skill: string)
      requires Valid() && WellFormed(skill) && skill !in skillsList
      modifies this
      ensures Valid()
      ensures skillsList == old(skillsList) + [skill]
      ensures formData == old(formData)["skills" := Text(Render(skillsList))]
      ensures errors == old(errors) && isSubmitting == old(isSubmitting)
      ensures registrationSuccess == old(registrationSuccess)
    {
      var newSkillsList := skillsList + [skill];
      var f := formData["skills" := Text(Render(newSkillsList))];
      AppendInSync(formData, skillsList, skill);
      skillsList := newSkillsList;
      formData := f;
    }

    /** `removeSkill`: every occurrence goes and the text is rewritten, even when none was there. */
    method RemoveSkill(skill: string)
      requires Valid()
      modifies this
      ensures Valid()
      ensures skillsList == RemoveAll(old(skillsList), skill)
      ensures formData == old(formData)["skills" := Text(Render(skillsList))]
      ensures errors == old(errors) && isSubmitting == old(isSubmitting)
      ensures registrationSuccess == old(registrationSuccess)
    {
      var newSkillsList := RemoveAll(skillsList, skill);
      var f := formData["skills" := Text(Render(newSkillsList))];
      RemoveInSync(formData, skillsList, skill);
      skillsList := newSkillsList;
      formData := f;
    }

    /**
     * The delay-based `handleSubmit` wired to the form: a validation failure
     * publishes the errors; otherwise the page passes through its pending
     * state to the success view.
     */
    method HandleSubmit()
      requires Valid() && !isSubmitting
      modifies this
      ensures Valid() && formData == old(formData) && skillsList == old(skillsList)
      ensures Status(errors, isSubmitting, registrationSuccess)
           == ResolveSimulated(Status(old(errors), old(isSubmitting), old(registrationSuccess)), Errors(formData, skillsList))
    {
      ghost var before := Status(errors, isSubmitting, registrationSuccess);
      var formErrors := ValidateForm(formData, skillsList);
      if formErrors != map[] {
        errors := formErrors;
        return;
      }
      Begin();
      FinishSimulated();
      SimulatedThroughPending(before);
    }

    /** `setIsSubmitting(true)` and `setErrors({})`: the page enters its pending state. */
    method Begin()
      modifies this
      ensures formData == old(formData) && skillsList == old(skillsList)
      ensures errors == map[] && isSubmitting
      ensures Status(errors, isSubmitting, registrationSuccess)
           == Pending(Status(old(errors), old(isSubmitting), old(registrationSuccess)))
    {
      isSubmitting := true;
      errors := map[];
    }

    /** After the delay, from the pending state: the success message is shown and `isSubmitting` reset. */
    method FinishSimulated()
      requires isSubmitting
      modifies this
      ensures formData == old(formData) && skillsList == old(skillsList)
      ensures Status(errors, isSubmitting, registrationSuccess)
           == SettleSimulated(Status(old(errors), old(isSubmitting), old(registrationSuccess)))
    {
      registrationSuccess := true;
      isSubmitting := false;
    }
  }
}
