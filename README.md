# TalentFlow sign-up and sign-in, modelled in Dafny

This project models the sign-up and sign-in core of the TalentFlow freelance
hiring platform, in two halves.

The React half has five pages: freelancer, client and admin registration, and
freelancer and admin login. For each page the model gives:

- the form store and its `handleChange` rule;
- the page's `validateForm`, as an in-place method proved equal to a
  declarative error map, with lemmas per rule;
- for the four pages other than freelancer registration, the fetch-based
  `handleSubmit` as a transition. The result of the network call is an input
  `Outcome`: ok with `token` and `role`, refused with an optional `message`,
  or thrown. `localStorage` is a `Storage` object and navigation is an
  output.

The freelancer registration page also keeps a skills list beside the skills
text. Its `handleSkillsChange`, `addSkill` and `removeSkill` are proved to
keep the list equal to the parse of the text. The delay-based `handleSubmit`
that the freelancer and admin registration pages wire to their forms is
modelled too. It is shown to be the shared fetch-based transition answered
ok, without the storage writes.

The Spring half has three parts:

- `AuthService`: three registrations and a login over a user table keyed by
  email;
- the `User` entity's authorities, user name and status flags;
- the exception advice that turns exceptions into 400 and 401 answers.

The password encoder, the JWT generator and the authentication manager are
function-valued inputs. `EndToEnd` connects the two halves: a page's body is
bound to the service's request, and the service's answer or exception
becomes the response the page reads.

Modules, one or more per file:

- `Wrappers`, `Text` (JavaScript `trim`, `\s`, `split`, `join`, UTF-16
  `length`), `Patterns` (the two regular expressions as predicates):
  `text.dfy`, `patterns.dfy`;
- `FieldStore`, `Rules`, `Skills`: `field_store.dfy`, `rules.dfy`,
  `skills.dfy`;
- `Http`, `Submission` (the shared submission transition and `Storage`):
  `submission.dfy`;
- one module per page: `*_page.dfy`;
- `Users`, `Exceptions`, `ExceptionHandler`, `Auth`, `EndToEnd`: `users.dfy`,
  `exceptions.dfy`, `auth.dfy`, `end_to_end.dfy`.

Modelling choices:

- **Skills count duplicates.** The skills rule is sometimes described as
  needing three distinct entries. `FreelancerRegistrationPage.js:76` counts
  the list's entries, duplicates included, so "React, React, Node" passes.
  The model follows the code (`Skills.DuplicatesKept`,
  `FreelancerRegistrationPage.DuplicateSkillsCount`).
- **Fetch handlers run in the component.** The fetch-based `handleSubmit`
  functions are declared at module level, outside the components whose state
  they use, and are not wired to any form. They are modelled as if they ran
  inside the component, on its state.
- **String lengths.** `password.length` counts UTF-16 code units, so a
  character outside the Basic Multilingual Plane counts twice.
- **Whitespace.** White space for `trim` and `\S` is the ECMAScript
  WhiteSpace and LineTerminator set.
- **One request at a time.** The submit button is disabled while
  `isSubmitting`, so every `HandleSubmit` requires `!isSubmitting`.
- **Begin and Finish.** Each `HandleSubmit` validates, then calls `Begin`,
  which puts the page in its pending state (errors empty, `isSubmitting`
  set) while the request is in flight, and then `Finish`, or
  `FinishSimulated` on the delay-based handlers, which ends it from there.
- **Exceptions as results.** Java exceptions are `Failure` values carrying
  the thrown exception. An `AuthenticationException` is also a
  `RuntimeException`; Spring picks the closer handler, so it gets the 401.

## Model

| member | source | states |
|---|---|---|
| `Text.TrimFacts` | my-react-app/src/pages/FreelancerRegistrationPage.js:44 | `trim()` is empty exactly for all-white-space text; otherwise the result starts and ends with a non-space |
| `Text.IsSpace` | my-react-app/src/pages/FreelancerRegistrationPage.js:44 | the white space `trim` removes and `\S` excludes: the ECMAScript WhiteSpace and LineTerminator characters |
| `Text.Trim` | my-react-app/src/pages/FreelancerRegistrationPage.js:44 | `String.prototype.trim`: `TrimEnd` after `TrimStart`, pinned down by `Text.TrimStartFacts` and `Text.TrimEndFacts`; `Text.TrimFacts` and `Text.TrimKeepsCharacters` follow |
| `Text.TrimStartFacts` | my-react-app/src/pages/FreelancerRegistrationPage.js:44 | the start of `trim`: the result is a suffix that starts with a non-space, and only white space was dropped |
| `Text.TrimEndFacts` | my-react-app/src/pages/FreelancerRegistrationPage.js:44 | the end of `trim`: the result is a prefix that ends with a non-space, and only white space was dropped |
| `Text.TrimKeepsCharacters` | my-react-app/src/pages/FreelancerRegistrationPage.js:33 | `trim` only removes characters, so a trimmed skill piece has no comma |
| `Text.Split` | my-react-app/src/pages/FreelancerRegistrationPage.js:33 | `split(',')` always yields at least one piece |
| `Text.SplitOmitsSeparator` | my-react-app/src/pages/FreelancerRegistrationPage.js:33 | no piece of `split(',')` contains a comma |
| `Text.JoinSplit` | my-react-app/src/pages/FreelancerRegistrationPage.js:33 | joining the pieces of a split with the separator gives back the text |
| `Text.SplitJoin` | my-react-app/src/pages/FreelancerRegistrationPage.js:130 | splitting a join of comma-free pieces gives back the pieces |
| `Text.Join` | my-react-app/src/pages/FreelancerRegistrationPage.js:130 | `Array.prototype.join(sep)`: the pieces with the separator between neighbours; `Text.JoinSplit` and `Text.SplitJoin` make it the inverse of `Split` |
| `Text.Utf16Length` | my-react-app/src/pages/FreelancerRegistrationPage.js:56 | `password.length` counts UTF-16 code units: between the number of characters and twice that, and zero only for the empty string |
| `Text.Utf16LengthOfBmp` | my-react-app/src/pages/FreelancerRegistrationPage.js:56 | for text without supplementary-plane characters, `length` equals the character count |
| `Patterns.MatchesEmailPattern` | my-react-app/src/pages/FreelancerRegistrationPage.js:50 | the regular expression `\S+@\S+\.\S+` searched anywhere in the text, spelled out as the existence of a match |
| `Patterns.EmailShape` | my-react-app/src/pages/FreelancerRegistrationPage.js:50 | `/\S+@\S+\.\S+/.test(email)` as an executable test; `Patterns.EmailShapeIsPattern` proves it equal to the pattern |
| `Patterns.PortfolioShape` | my-react-app/src/pages/FreelancerRegistrationPage.js:80 | `/^https?:\/\/.+/.test(url)`: `http://` or `https://` at the start, then at least one character other than a line terminator |
| `Patterns.EmailShapeIsPattern` | my-react-app/src/pages/FreelancerRegistrationPage.js:50 | the anchored test agrees with the unanchored regex `\S+@\S+\.\S+` on every string |
| `Patterns.BlankIsNoEmail` | my-react-app/src/pages/FreelancerRegistrationPage.js:48-51 | an all-white-space email never matches the pattern, so the required check and the shape check cannot both fire |
| `Patterns.NoDotNoEmail` | my-react-app/src/pages/FreelancerRegistrationPage.js:50 | text without a `.` never matches the email pattern |
| `Patterns.EmailShapeIgnoresContext` | my-react-app/src/pages/FreelancerRegistrationPage.js:50 | the pattern is not anchored: text before or after a match does not hide it |
| `Patterns.PortfolioShapeExtends` | my-react-app/src/pages/FreelancerRegistrationPage.js:80 | the portfolio pattern is not anchored at the end: any text may follow a match |
| `Patterns.PortfolioShapeNeedsScheme` | my-react-app/src/pages/FreelancerRegistrationPage.js:80 | the portfolio pattern is anchored at the start: every match begins with `http` |
| `Rules.Required` | my-react-app/src/pages/FreelancerRegistrationPage.js:44-46 | a required rule fails exactly when `trim` of the value is empty, that is, when it is all white space, and then gives its own message |
| `Rules.EmailRule` | my-react-app/src/pages/FreelancerRegistrationPage.js:48-52 | "Email is required" exactly when the text trims to nothing, "Email is invalid" exactly for non-blank text the pattern does not find, and no error exactly when the pattern finds a match |
| `Rules.RegistrationPasswordRule` | my-react-app/src/pages/FreelancerRegistrationPage.js:54-58 | "required" exactly for the empty password (no trim), "too short" exactly for a non-empty one under 8 code units, no error exactly from 8 units up |
| `Rules.LoginPasswordRule` | my-react-app/src/pages/FreelancerLoginPage.js:34-36 | the login pages only require a non-empty password, with no minimum length |
| `Rules.ConfirmRule` | my-react-app/src/pages/FreelancerRegistrationPage.js:60-64 | confirmation is required (no trim), then must equal the password exactly; no error exactly when it is non-empty and equal |
| `Rules.TermsRule` | my-react-app/src/pages/FreelancerRegistrationPage.js:84-86 | the terms rule fails exactly when the box is unticked |
| `Rules.PutHere` | my-react-app/src/pages/FreelancerRegistrationPage.js:45 | `newErrors[key] = message` sets the key exactly when its rule failed |
| `Rules.PutElsewhere` | my-react-app/src/pages/FreelancerRegistrationPage.js:45 | one step of `validateForm` leaves every other key as it was |
| `Rules.Put` | my-react-app/src/pages/FreelancerRegistrationPage.js:45 | one `newErrors[key] = message` step, taken only when its rule failed; `Rules.PutHere` and `Rules.PutElsewhere` state its effect |
| `Rules.CheckRequired` | my-react-app/src/pages/FreelancerRegistrationPage.js:44-46 | the in-place required step matches the required rule |
| `Rules.CheckEmail` | my-react-app/src/pages/FreelancerRegistrationPage.js:48-52 | the in-place email step matches the email rule |
| `Rules.CheckRegistrationPassword` | my-react-app/src/pages/FreelancerRegistrationPage.js:54-58 | the in-place password step matches the registration password rule |
| `Rules.CheckLoginPassword` | my-react-app/src/pages/FreelancerLoginPage.js:34-36 | the in-place login password step matches the login password rule |
| `Rules.CheckConfirm` | my-react-app/src/pages/FreelancerRegistrationPage.js:60-64 | the in-place confirmation step matches the confirmation rule |
| `Rules.CheckTerms` | my-react-app/src/pages/FreelancerRegistrationPage.js:84-86 | the in-place terms step matches the terms rule |
| `FieldStore.ApplyChange` | my-react-app/src/pages/FreelancerRegistrationPage.js:24-30 | `handleChange` changes only the named entry: a checkbox stores `checked`, any other input stores `value` verbatim, and every other entry is unchanged |
| `FieldStore.ChangeConforms` | my-react-app/src/pages/FreelancerRegistrationPage.js:24-30 | events from the page's own inputs keep the form's keys and the kind of every entry |
| `FieldStore.Initial` | my-react-app/src/pages/FreelancerRegistrationPage.js:6-18 | the initial form has every text input empty and every checkbox unticked |
| `FieldStore.SetTextConforms` | my-react-app/src/pages/FreelancerRegistrationPage.js:35-38 | storing text under a text input keeps the form conforming |
| `FieldStore.ChangeKeepsOtherText` | my-react-app/src/pages/FreelancerRegistrationPage.js:24-30 | a change to one input leaves the text of every other input as it was |
| `FieldStore.StoreKeepsOthers` | my-react-app/src/pages/FreelancerRegistrationPage.js:35-38 | storing a value under one name leaves every other name as it was |
| `FieldStore.TextOfStored` | my-react-app/src/pages/FreelancerRegistrationPage.js:35-38 | reading a name back gives the text just stored under it |
| `FieldStore.TextOf` | my-react-app/src/pages/FreelancerRegistrationPage.js:44 | `formData[name]` read as text, as the rules read it |
| `FieldStore.FlagOf` | my-react-app/src/pages/FreelancerRegistrationPage.js:84 | `formData[name]` read as a checkbox flag |
| `Skills.TrimAll` | my-react-app/src/pages/FreelancerRegistrationPage.js:33 | `map(skill => skill.trim())` keeps the length |
| `Skills.TrimAllPointwise` | my-react-app/src/pages/FreelancerRegistrationPage.js:33 | entry `k` of the mapped list is `trim` of entry `k` |
| `Skills.DropEmptyCounts` | my-react-app/src/pages/FreelancerRegistrationPage.js:33 | `filter(skill => skill)` keeps every non-empty entry as often as it occurs and drops only empty ones |
| `Skills.DropEmpty` | my-react-app/src/pages/FreelancerRegistrationPage.js:33 | `filter(skill => skill)`: the empty strings dropped, order kept; `Skills.DropEmptyCounts` states it by multiset |
| `Skills.ParseWellFormed` | my-react-app/src/pages/FreelancerRegistrationPage.js:33 | every parsed skill is non-empty, trimmed and comma-free |
| `Skills.ParseOfBlank` | my-react-app/src/pages/FreelancerRegistrationPage.js:33 | text that trims to nothing parses to the empty list |
| `Skills.ParseAtComma` | my-react-app/src/pages/FreelancerRegistrationPage.js:33 | text up to the first comma parses on its own, followed by the parse of the rest |
| `Skills.ParseRender` | my-react-app/src/pages/FreelancerRegistrationPage.js:124-142 | round trip: parsing the `join(', ')` of a well-formed list gives back the list |
| `Skills.ParseIsStable` | my-react-app/src/pages/FreelancerRegistrationPage.js:33 | a parsed list survives being joined with `', '` and parsed again |
| `Skills.PopularSkillsWellFormed` | my-react-app/src/pages/FreelancerRegistrationPage.js:119-122 | every popular skill is non-empty, trimmed and comma-free |
| `Skills.PopularSkillWellFormed` | my-react-app/src/pages/FreelancerRegistrationPage.js:119-122 | any skill offered by a button keeps the list well-formed |
| `Skills.RemoveAllCounts` | my-react-app/src/pages/FreelancerRegistrationPage.js:136 | `removeSkill`'s filter drops every copy of the skill and keeps every other entry as often as it occurs |
| `Skills.AddKeepsSync` | my-react-app/src/pages/FreelancerRegistrationPage.js:124-133 | after `addSkill` the list stays well-formed and its rewritten text parses back to it |
| `Skills.RemoveKeepsSync` | my-react-app/src/pages/FreelancerRegistrationPage.js:135-142 | after `removeSkill` the list stays well-formed and its rewritten text parses back to it |
| `Skills.RemoveAbsent` | my-react-app/src/pages/FreelancerRegistrationPage.js:136 | removing a skill that is not listed leaves the list unchanged |
| `Skills.RemoveAppend` | my-react-app/src/pages/FreelancerRegistrationPage.js:136 | removal distributes over concatenation |
| `Skills.RemoveUndoesAdd` | my-react-app/src/pages/FreelancerRegistrationPage.js:124-142 | removing a skill that adding has just appended restores the list |
| `Skills.DuplicatesKept` | my-react-app/src/pages/FreelancerRegistrationPage.js:33 | parsing keeps duplicates: "React, React, Node" gives three entries |
| `Skills.Parse` | my-react-app/src/pages/FreelancerRegistrationPage.js:33 | `split(',').map(trim).filter(skill => skill)`; `Skills.ParseWellFormed`, `Skills.ParseAtComma` and `Skills.ParseRender` state what it gives |
| `Skills.Render` | my-react-app/src/pages/FreelancerRegistrationPage.js:130 | `join(', ')` of the list, the text written back; `Skills.ParseRender` proves `Parse` inverts it on well-formed lists |
| `Skills.Add` | my-react-app/src/pages/FreelancerRegistrationPage.js:126 | `[...skillsList, skill]`; `Skills.AddKeepsSync` and `Skills.RemoveUndoesAdd` are its partners |
| `Skills.RemoveAll` | my-react-app/src/pages/FreelancerRegistrationPage.js:136 | `filter(skill => skill !== skillToRemove)`; `Skills.RemoveAllCounts` states what it keeps and drops |
| `Submission.Receive` | my-react-app/src/pages/FreelancerLoginPage.js:302-304 | a body that is not JSON reads as a throw; an ok status reads as success; any other status reads as a refusal |
| `Http.IsOk` | my-react-app/src/pages/AdminRegistrationPage.js:332 | `response.ok`: a status from 200 to 299 |
| `Submission.Property` | my-react-app/src/pages/AdminRegistrationPage.js:334-335 | `data.token` and `data.role`, with a missing property stored as the text "undefined" |
| `Submission.MessageOr` | my-react-app/src/pages/AdminRegistrationPage.js:345 | `data.message` or else the fallback: an absent or empty message gives the fallback |
| `Submission.StoreCredentials` | my-react-app/src/pages/FreelancerLoginPage.js:306-312 | `token`, then `userRole`, then `rememberedEmail` when asked, written to storage |
| `Submission.Resolve` | my-react-app/src/pages/AdminRegistrationPage.js:306-353 | the fetch-based `handleSubmit` as a transition; `Submission.ValidationFailureHalts`, `RequestIffValid`, `StorageOnlyOnOk`, `RequestEndings` and `ErrorsOnlyAfterFailure` state its branches |
| `Submission.ResolveSimulated` | my-react-app/src/pages/AdminRegistrationPage.js:68-94 | the delay-based `handleSubmit`: publish a non-empty error map, otherwise show success; `Submission.SimulatedIsOkWithoutStorage` relates it to `Resolve` |
| `Submission.Pending` | my-react-app/src/pages/AdminRegistrationPage.js:316-317 | the state while a request is in flight: errors empty, `isSubmitting` set, the success flag kept |
| `Submission.Settle` | my-react-app/src/pages/AdminRegistrationPage.js:330-352 | the ending from the pending state: success view or navigation with the credentials stored, or one `submit` message with `isSubmitting` reset |
| `Submission.ResolveThroughPending` | my-react-app/src/pages/AdminRegistrationPage.js:316-352 | a submission that passes validation is the request sent from the pending state (errors empty, `isSubmitting` set), then `Settle` from there |
| `Submission.NavigationKeepsPending` | my-react-app/src/pages/FreelancerLoginPage.js:304-315 | a page that navigates on success stays in its pending state: errors empty and `isSubmitting` still set |
| `Submission.SettleSimulated` | my-react-app/src/pages/AdminRegistrationPage.js:80-89 | the delay-based ending from the pending state: the success view with `isSubmitting` reset |
| `Submission.SimulatedThroughPending` | my-react-app/src/pages/AdminRegistrationPage.js:77-89 | the delay-based submission passes through the pending state and ends with no errors and `isSubmitting` reset |
| `Submission.ValidationFailureHalts` | my-react-app/src/pages/AdminRegistrationPage.js:310-314 | a validation failure publishes the errors and halts: no request, no storage write, `isSubmitting` and `registrationSuccess` unchanged |
| `Submission.RequestIffValid` | my-react-app/src/pages/AdminRegistrationPage.js:310-329 | a request is sent exactly when validation passes, to the page's endpoint with the page's body |
| `Submission.StorageOnlyOnOk` | my-react-app/src/pages/AdminRegistrationPage.js:332-352 | storage changes only on an ok answer to a valid form, and then only `token`, `userRole` and, when asked, `rememberedEmail` |
| `Submission.RequestEndings` | my-react-app/src/pages/AdminRegistrationPage.js:316-352 | after a sent request: a refusal shows `data.message` or the fallback, a throw shows the fixed message, both with `isSubmitting` reset; ok clears the errors |
| `Submission.ErrorsOnlyAfterFailure` | my-react-app/src/pages/AdminRegistrationPage.js:310-352 | the errors end empty exactly when validation passed and the answer was ok, and hold `submit` exactly when the request failed |
| `Submission.SimulatedIsOkWithoutStorage` | my-react-app/src/pages/AdminRegistrationPage.js:68-94 | the delay-based handler ends like the fetch-based one answered ok, without storage writes |
| `Submission.Storage.SetItem` | my-react-app/src/pages/AdminRegistrationPage.js:334-335 | `localStorage.setItem` stores the value under its key and changes nothing else |
| `FreelancerRegistrationPage.SkillsRule` | my-react-app/src/pages/FreelancerRegistrationPage.js:74-78 | "at least one" exactly when the text trims to nothing, "at least 3" exactly when it does not and the list has fewer than three entries |
| `FreelancerRegistrationPage.PortfolioRule` | my-react-app/src/pages/FreelancerRegistrationPage.js:80-82 | the URL fails exactly when it is non-empty and does not start with `http://` or `https://` followed by a character |
| `FreelancerRegistrationPage.Errors` | my-react-app/src/pages/FreelancerRegistrationPage.js:41-89 | the map `validateForm` returns for the nine rules, in the order checked; `FreelancerRegistrationPage.ErrorsEmptyIff` is its partner |
| `FreelancerRegistrationPage.ErrorsEmptyIff` | my-react-app/src/pages/FreelancerRegistrationPage.js:41-89 | the error map is empty exactly when all nine rules pass |
| `FreelancerRegistrationPage.ErrorKeys` | my-react-app/src/pages/FreelancerRegistrationPage.js:41-89 | only the nine validated inputs are reported on; `bio` never is |
| `FreelancerRegistrationPage.BioIgnored` | my-react-app/src/pages/FreelancerRegistrationPage.js:41-89 | changing the bio never changes the error map |
| `FreelancerRegistrationPage.SkillsEntry` | my-react-app/src/pages/FreelancerRegistrationPage.js:74-78 | the `skills` entry of the error map is exactly the skills rule's verdict |
| `FreelancerRegistrationPage.SkillsErrorIffFewEntries` | my-react-app/src/pages/FreelancerRegistrationPage.js:74-78 | with the list in sync with the text, skills fail exactly when fewer than three entries parse |
| `FreelancerRegistrationPage.DuplicateSkillsCount` | my-react-app/src/pages/FreelancerRegistrationPage.js:76 | "React, React, Node" passes the skills rule: duplicates count |
| `FreelancerRegistrationPage.EmptyPortfolioAccepted` | my-react-app/src/pages/FreelancerRegistrationPage.js:80 | an empty portfolio URL is never reported |
| `FreelancerRegistrationPage.ValidateForm` | my-react-app/src/pages/FreelancerRegistrationPage.js:41-89 | filling `newErrors` step by step gives exactly the error map of the nine rules |
| `FreelancerRegistrationPage.CheckSkills` | my-react-app/src/pages/FreelancerRegistrationPage.js:74-78 | the in-place skills step matches the skills rule |
| `FreelancerRegistrationPage.CheckPortfolio` | my-react-app/src/pages/FreelancerRegistrationPage.js:80-82 | the in-place portfolio step matches the portfolio rule |
| `FreelancerRegistrationPage.StoreRendered` | my-react-app/src/pages/FreelancerRegistrationPage.js:127-132 | writing a well-formed list back as the text keeps the form conforming and in step with the list |
| `FreelancerRegistrationPage.AppendInSync` | my-react-app/src/pages/FreelancerRegistrationPage.js:124-133 | appending a new well-formed skill and rewriting the text keeps list and text in step |
| `FreelancerRegistrationPage.RemoveInSync` | my-react-app/src/pages/FreelancerRegistrationPage.js:135-142 | removing a skill and rewriting the text keeps list and text in step |
| `FreelancerRegistrationPage.TypedInSync` | my-react-app/src/pages/FreelancerRegistrationPage.js:32-39 | typed skills text is stored verbatim, and the list is its parse |
| `FreelancerRegistrationPage.Component.constructor` | my-react-app/src/pages/FreelancerRegistrationPage.js:6-22 | the page starts with the initial form, an empty skills list in sync with it, no errors, not submitting |
| `FreelancerRegistrationPage.Component.HandleChange` | my-react-app/src/pages/FreelancerRegistrationPage.js:24-30 | updates only the named input and keeps the skills list in sync |
| `FreelancerRegistrationPage.Component.HandleSkillsChange` | my-react-app/src/pages/FreelancerRegistrationPage.js:32-39 | stores the text verbatim and sets the list to its parse |
| `FreelancerRegistrationPage.Component.AddSkill` | my-react-app/src/pages/FreelancerRegistrationPage.js:124-133 | no change when the skill is listed; otherwise it is appended, the text becomes the join, and the list stays in sync |
| `FreelancerRegistrationPage.Component.AppendSkill` | my-react-app/src/pages/FreelancerRegistrationPage.js:126-132 | the changing branch of `addSkill`: list plus skill, text rewritten, sync preserved |
| `FreelancerRegistrationPage.Component.RemoveSkill` | my-react-app/src/pages/FreelancerRegistrationPage.js:135-142 | every occurrence removed, the text rewritten as the join, sync preserved |
| `FreelancerRegistrationPage.Component.HandleSubmit` | my-react-app/src/pages/FreelancerRegistrationPage.js:91-117 | a non-empty error map is published with nothing else changed; otherwise the errors are cleared and the success view shown with `isSubmitting` reset |
| `FreelancerRegistrationPage.Component.Begin` | my-react-app/src/pages/FreelancerRegistrationPage.js:100-101 | the page enters its pending state: errors empty and `isSubmitting` set, the form and list unchanged |
| `FreelancerRegistrationPage.Component.FinishSimulated` | my-react-app/src/pages/FreelancerRegistrationPage.js:105-112 | from the pending state, after the delay: the success view, with `isSubmitting` reset, as `Submission.SettleSimulated` says |
| `AdminRegistrationPage.ErrorsEmptyIff` | my-react-app/src/pages/AdminRegistrationPage.js:28-66 | the error map is empty exactly when all seven rules pass |
| `AdminRegistrationPage.Errors` | my-react-app/src/pages/AdminRegistrationPage.js:28-66 | the map `validateForm` returns for the seven rules; `AdminRegistrationPage.ErrorsEmptyIff` is its partner |
| `AdminRegistrationPage.Submit` | my-react-app/src/pages/AdminRegistrationPage.js:306-353 | the fetch-based `handleSubmit` of this page: `Resolve` with the admin endpoint, the whole form as body and the success view |
| `AdminRegistrationPage.SimulatedSubmit` | my-react-app/src/pages/AdminRegistrationPage.js:68-94 | the delay-based `handleSubmit` of this page: `ResolveSimulated` of its error map |
| `AdminRegistrationPage.ErrorKeys` | my-react-app/src/pages/AdminRegistrationPage.js:28-66 | the keys of the error map are among the seven inputs |
| `AdminRegistrationPage.AdminCodeValueIgnored` | my-react-app/src/pages/AdminRegistrationPage.js:53-55 | any two non-blank admin codes give the same error map: the page never compares the code |
| `AdminRegistrationPage.DepartmentRequiredRule` | my-react-app/src/pages/AdminRegistrationPage.js:57-59 | the department fails exactly when it trims to nothing, with its own message |
| `AdminRegistrationPage.PasswordEntry` | my-react-app/src/pages/AdminRegistrationPage.js:41-45 | the password entry is the registration password rule, as on the freelancer page |
| `AdminRegistrationPage.ConfirmEntry` | my-react-app/src/pages/AdminRegistrationPage.js:47-51 | the confirmation entry is the confirmation rule: required, then exact equality |
| `AdminRegistrationPage.ValidateForm` | my-react-app/src/pages/AdminRegistrationPage.js:28-66 | filling `newErrors` step by step gives exactly the error map of the seven rules |
| `AdminRegistrationPage.FailureHalts` | my-react-app/src/pages/AdminRegistrationPage.js:310-314 | a validation failure replaces `errors`, sends nothing and leaves `isSubmitting` and storage alone |
| `AdminRegistrationPage.BodyIsWholeForm` | my-react-app/src/pages/AdminRegistrationPage.js:321-328 | a valid form is posted whole, admin code included, to `/api/auth/register/admin` |
| `AdminRegistrationPage.OkShowsSuccess` | my-react-app/src/pages/AdminRegistrationPage.js:332-341 | an ok answer stores `token` and `userRole`, sets `registrationSuccess` and resets `isSubmitting` |
| `AdminRegistrationPage.FailureMessages` | my-react-app/src/pages/AdminRegistrationPage.js:342-352 | a refusal shows `data.message` or "Registration failed. Check your Admin Code.", a throw the unreachable message; storage untouched, `isSubmitting` reset |
| `AdminRegistrationPage.SimulatedIsOk` | my-react-app/src/pages/AdminRegistrationPage.js:68-94 | the delay-based handler is the fetch-based one answered ok, minus storage |
| `AdminRegistrationPage.Component.constructor` | my-react-app/src/pages/AdminRegistrationPage.js:6-18 | the page starts with the initial form, no errors, not submitting, no success |
| `AdminRegistrationPage.Component.HandleChange` | my-react-app/src/pages/AdminRegistrationPage.js:20-26 | updates only the named input; nothing else changes |
| `AdminRegistrationPage.Component.HandleSimulatedSubmit` | my-react-app/src/pages/AdminRegistrationPage.js:68-94 | the delay-based handler: publish a non-empty error map, else show success |
| `AdminRegistrationPage.Component.Begin` | my-react-app/src/pages/AdminRegistrationPage.js:316-317 | the page enters its pending state (here and at lines 77-78): errors empty and `isSubmitting` set, nothing else changed |
| `AdminRegistrationPage.Component.FinishSimulated` | my-react-app/src/pages/AdminRegistrationPage.js:80-89 | from the pending state, after the delay: the success view, with `isSubmitting` reset |
| `AdminRegistrationPage.Component.HandleSubmit` | my-react-app/src/pages/AdminRegistrationPage.js:306-353 | the fetch-based handler's new state, storage, and request are those of the page's transition for the outcome |
| `AdminRegistrationPage.Component.Finish` | my-react-app/src/pages/AdminRegistrationPage.js:330-352 | from the pending state, the outcome of the request as `Submission.Settle` says: the new state and storage |
| `ClientRegistrationPage.ErrorsEmptyIff` | my-react-app/src/pages/ClientRegistrationPage.js:27-59 | the error map is empty exactly when all six rules pass |
| `ClientRegistrationPage.Errors` | my-react-app/src/pages/ClientRegistrationPage.js:27-59 | the map `validateForm` returns for the six rules; `ClientRegistrationPage.ErrorsEmptyIff` is its partner |
| `ClientRegistrationPage.Submit` | my-react-app/src/pages/ClientRegistrationPage.js:260-304 | the fetch-based `handleSubmit` of this page: `Resolve` with the client endpoint, the whole form as body and the success view |
| `ClientRegistrationPage.ErrorKeys` | my-react-app/src/pages/ClientRegistrationPage.js:27-59 | the keys are among the six inputs, with no `confirmPassword` rule |
| `ClientRegistrationPage.CompanyNameRule` | my-react-app/src/pages/ClientRegistrationPage.js:46-48 | company name fails exactly when it trims to nothing |
| `ClientRegistrationPage.PhoneNumberRule` | my-react-app/src/pages/ClientRegistrationPage.js:50-52 | phone number fails exactly when it trims to nothing |
| `ClientRegistrationPage.AgreedToTermsRule` | my-react-app/src/pages/ClientRegistrationPage.js:54-56 | the terms box fails exactly when unticked |
| `ClientRegistrationPage.PasswordEntry` | my-react-app/src/pages/ClientRegistrationPage.js:40-44 | the password entry is the registration password rule |
| `ClientRegistrationPage.ShortPasswordRejected` | my-react-app/src/pages/ClientRegistrationPage.js:42-43 | "short" is reported as too short |
| `ClientRegistrationPage.ValidateForm` | my-react-app/src/pages/ClientRegistrationPage.js:27-59 | filling `newErrors` step by step gives exactly the error map of the six rules |
| `ClientRegistrationPage.BodyIsWholeForm` | my-react-app/src/pages/ClientRegistrationPage.js:275-282 | the request, when sent, carries every input of the form |
| `ClientRegistrationPage.OkShowsSuccess` | my-react-app/src/pages/ClientRegistrationPage.js:286-293 | an ok answer stores `token` and `userRole`, shows success and resets `isSubmitting` |
| `ClientRegistrationPage.FailureMessages` | my-react-app/src/pages/ClientRegistrationPage.js:294-303 | a refusal shows `data.message` or "Registration failed. Please try again.", a throw the connection message; storage untouched, `isSubmitting` reset |
| `ClientRegistrationPage.Component.constructor` | my-react-app/src/pages/ClientRegistrationPage.js:6-17 | the page starts with the initial form, no errors, not submitting, no success |
| `ClientRegistrationPage.Component.HandleChange` | my-react-app/src/pages/ClientRegistrationPage.js:19-25 | updates only the named input; nothing else changes |
| `ClientRegistrationPage.Component.HandleSubmit` | my-react-app/src/pages/ClientRegistrationPage.js:260-304 | the handler's new state, storage, and request are those of the page's transition for the outcome |
| `ClientRegistrationPage.Component.Begin` | my-react-app/src/pages/ClientRegistrationPage.js:270-271 | the page enters its pending state: errors empty and `isSubmitting` set |
| `ClientRegistrationPage.Component.Finish` | my-react-app/src/pages/ClientRegistrationPage.js:284-303 | from the pending state, the outcome of the request as `Submission.Settle` says |
| `FreelancerLoginPage.ErrorsEmptyIff` | my-react-app/src/pages/FreelancerLoginPage.js:25-39 | the error map is empty exactly when the email matches and the password is non-empty |
| `FreelancerLoginPage.Errors` | my-react-app/src/pages/FreelancerLoginPage.js:25-39 | the map `validateForm` returns for the email and password rules; `FreelancerLoginPage.ErrorsEmptyIff` is its partner |
| `FreelancerLoginPage.Remembered` | my-react-app/src/pages/FreelancerLoginPage.js:310-312 | the email to remember: the form's email when `rememberMe` is ticked, none otherwise |
| `FreelancerLoginPage.Submit` | my-react-app/src/pages/FreelancerLoginPage.js:276-326 | the fetch-based `handleSubmit` of this page: `Resolve` with the login endpoint, the credentials as body, the remembered email and navigation to `/freelancer-dashboard` |
| `FreelancerLoginPage.OnlyTwoRules` | my-react-app/src/pages/FreelancerLoginPage.js:25-39 | only email and password are checked, the password with no minimum length |
| `FreelancerLoginPage.ValidateForm` | my-react-app/src/pages/FreelancerLoginPage.js:25-39 | filling `newErrors` step by step gives exactly the two-rule error map |
| `FreelancerLoginPage.Credentials` | my-react-app/src/pages/FreelancerLoginPage.js:296-299 | the body holds exactly `email` and `password`; `rememberMe` is not sent |
| `FreelancerLoginPage.RememberMe` | my-react-app/src/pages/FreelancerLoginPage.js:304-312 | on ok, `rememberedEmail` is written with the form's email exactly when the box is ticked |
| `FreelancerLoginPage.OkNavigates` | my-react-app/src/pages/FreelancerLoginPage.js:304-315 | on ok, `token` and `userRole` are stored and the page navigates to `/freelancer-dashboard` with `isSubmitting` left set |
| `FreelancerLoginPage.FailureMessages` | my-react-app/src/pages/FreelancerLoginPage.js:316-325 | a refusal shows `data.message` or the page's fallback, a throw the offline message; `isSubmitting` reset, storage untouched |
| `FreelancerLoginPage.BadEmailHalts` | my-react-app/src/pages/FreelancerLoginPage.js:280-284 | an email the pattern does not find is reported as invalid and no request is sent |
| `FreelancerLoginPage.DotlessEmailInvalid` | my-react-app/src/pages/FreelancerLoginPage.js:28-32 | "user@example" is invalid, and the password rule still runs |
| `FreelancerLoginPage.ShortPasswordAccepted` | my-react-app/src/pages/FreelancerLoginPage.js:34-36 | a short password is no obstacle at login |
| `FreelancerLoginPage.Component.constructor` | my-react-app/src/pages/FreelancerLoginPage.js:6-13 | the page starts with the initial form, no errors, not submitting |
| `FreelancerLoginPage.Component.HandleChange` | my-react-app/src/pages/FreelancerLoginPage.js:17-23 | updates only the named input, so `rememberMe` is stored as a boolean |
| `FreelancerLoginPage.Component.HandleSubmit` | my-react-app/src/pages/FreelancerLoginPage.js:276-326 | the handler's state, storage, request and navigation are those of the page's transition for the outcome |
| `FreelancerLoginPage.Component.Begin` | my-react-app/src/pages/FreelancerLoginPage.js:286-287 | the page enters its pending state: errors empty and `isSubmitting` set |
| `FreelancerLoginPage.Component.Finish` | my-react-app/src/pages/FreelancerLoginPage.js:302-325 | from the pending state, the outcome as `Submission.Settle` says, with the remembered email and the route asked for |
| `AdminLoginPage.ErrorsEmptyIff` | my-react-app/src/pages/AdminLoginPage.js:25-39 | the error map is empty exactly when the email matches and the password is non-empty |
| `AdminLoginPage.Errors` | my-react-app/src/pages/AdminLoginPage.js:25-39 | the map `validateForm` returns for the email and password rules; `AdminLoginPage.ErrorsEmptyIff` is its partner |
| `AdminLoginPage.Submit` | my-react-app/src/pages/AdminLoginPage.js:263-311 | the fetch-based `handleSubmit` of this page: `Resolve` with the login endpoint, the credentials as body, nothing remembered and navigation to `/admin-dashboard` |
| `AdminLoginPage.ValidateForm` | my-react-app/src/pages/AdminLoginPage.js:25-39 | filling `newErrors` step by step gives exactly the two-rule error map |
| `AdminLoginPage.Credentials` | my-react-app/src/pages/AdminLoginPage.js:284-287 | the body holds exactly `email` and `password` |
| `AdminLoginPage.NeverRemembers` | my-react-app/src/pages/AdminLoginPage.js:292-300 | `rememberedEmail` is never written, whatever the checkbox and the outcome |
| `AdminLoginPage.SameRulesAsFreelancerLogin` | my-react-app/src/pages/AdminLoginPage.js:25-39 | the validator is the freelancer login's, rule for rule |
| `AdminLoginPage.RoleNotChecked` | my-react-app/src/pages/AdminLoginPage.js:292-300 | every ok answer leads to `/admin-dashboard`, whatever role it carries |
| `AdminLoginPage.OkNavigates` | my-react-app/src/pages/AdminLoginPage.js:292-300 | on ok, `token` and `userRole` are stored and the page navigates to `/admin-dashboard` |
| `AdminLoginPage.FailureMessages` | my-react-app/src/pages/AdminLoginPage.js:301-310 | a refusal shows `data.message` or "Invalid admin credentials. Please try again.", a throw the not-responding message; `isSubmitting` reset |
| `AdminLoginPage.BadEmailHalts` | my-react-app/src/pages/AdminLoginPage.js:267-271 | an email the pattern does not find halts the submission with the errors replaced |
| `AdminLoginPage.Component.constructor` | my-react-app/src/pages/AdminLoginPage.js:6-13 | the page starts with the initial form, no errors, not submitting |
| `AdminLoginPage.Component.HandleChange` | my-react-app/src/pages/AdminLoginPage.js:17-23 | updates only the named input |
| `AdminLoginPage.Component.HandleSubmit` | my-react-app/src/pages/AdminLoginPage.js:263-311 | the handler's state, storage, request and navigation are those of the page's transition for the outcome |
| `AdminLoginPage.Component.Begin` | my-react-app/src/pages/AdminLoginPage.js:273-274 | the page enters its pending state: errors empty and `isSubmitting` set |
| `AdminLoginPage.Component.Finish` | my-react-app/src/pages/AdminLoginPage.js:290-310 | from the pending state, the outcome as `Submission.Settle` says, with the route asked for |
| `Users.RoleNameRoundTrip` | talentflow-backend/src/main/java/com/example/talentflowbackend/entity/User.java:33 | a role's name reads back as that role, and only role names read back |
| `Users.RoleNameInjective` | talentflow-backend/src/main/java/com/example/talentflowbackend/entity/User.java:33 | two roles have the same name exactly when they are the same role |
| `Users.RoleName` | talentflow-backend/src/main/java/com/example/talentflowbackend/entity/User.java:32-33 | `role.name()`, as the role is stored and answered; `Users.RoleNameRoundTrip` ties it to `RoleNamed` |
| `Users.RoleNamed` | talentflow-backend/src/main/java/com/example/talentflowbackend/entity/User.java:32-33 | `Role.valueOf(name)`, reading a stored name back, with none for a name that is no role |
| `Users.Authorities` | talentflow-backend/src/main/java/com/example/talentflowbackend/entity/User.java:50-53 | exactly one authority, whose string is `ROLE_` followed by a name that reads back as the user's role |
| `Users.AuthorityRole` | talentflow-backend/src/main/java/com/example/talentflowbackend/entity/User.java:52 | the role an authority string grants: `ROLE_` followed by a role name; the independent reading `Users.Authorities` is checked against |
| `Users.AuthoritiesDetermineRole` | talentflow-backend/src/main/java/com/example/talentflowbackend/entity/User.java:52 | two users have equal authorities exactly when they have the same role |
| `Users.Username` | talentflow-backend/src/main/java/com/example/talentflowbackend/entity/User.java:55-58 | `getUsername` returns the email; `Auth.UsernameFindsUser` proves it is the key that finds the user in the table |
| `Users.IsAccountNonExpired` | talentflow-backend/src/main/java/com/example/talentflowbackend/entity/User.java:60-63 | `isAccountNonExpired` is true |
| `Users.IsAccountNonLocked` | talentflow-backend/src/main/java/com/example/talentflowbackend/entity/User.java:65-68 | `isAccountNonLocked` is true |
| `Users.IsCredentialsNonExpired` | talentflow-backend/src/main/java/com/example/talentflowbackend/entity/User.java:70-73 | `isCredentialsNonExpired` is true |
| `Users.IsEnabled` | talentflow-backend/src/main/java/com/example/talentflowbackend/entity/User.java:75-78 | `isEnabled` is true |
| `Users.EveryAccountUsable` | talentflow-backend/src/main/java/com/example/talentflowbackend/entity/User.java:60-78 | the four account-status methods return true for every user |
| `ExceptionHandler.Handle` | talentflow-backend/src/main/java/com/example/talentflowbackend/exception/GlobalExceptionHandler.java:10-18 | status 401 exactly for an authentication failure and 400 for every other exception; the body is the one key `message`, holding "Invalid email or password." for 401 and the exception's own message for 400 |
| `ExceptionHandler.AuthMessageIgnored` | talentflow-backend/src/main/java/com/example/talentflowbackend/exception/GlobalExceptionHandler.java:17 | the 401 answer does not depend on what the authentication failure said |
| `ExceptionHandler.HandledIsRefusal` | talentflow-backend/src/main/java/com/example/talentflowbackend/exception/GlobalExceptionHandler.java:10-18 | a page reads every handled exception as a refusal carrying the response's message |
| `Exceptions.Message` | talentflow-backend/src/main/java/com/example/talentflowbackend/exception/GlobalExceptionHandler.java:12 | `e.getMessage()` of each exception the service can raise; an empty `Optional` gives "No value present" |
| `Exceptions.IsAuthentication` | talentflow-backend/src/main/java/com/example/talentflowbackend/exception/GlobalExceptionHandler.java:15 | the exceptions that are `AuthenticationException`s and so reach the 401 handler |
| `Auth.RegisterOutcome` | talentflow-backend/src/main/java/com/example/talentflowbackend/service/AuthService.java:31-33 | a registration either stores exactly the new user under its email and answers with that user's token and role name, or fails on a taken email with nothing stored; other rows are kept and the table stays keyed by email |
| `Auth.KeyedByEmail` | talentflow-backend/src/main/java/com/example/talentflowbackend/entity/User.java:23-24 | the unique key on `email`: every row stored under its own email |
| `Auth.NewFreelancer` | talentflow-backend/src/main/java/com/example/talentflowbackend/service/AuthService.java:20-30 | the freelancer the builder chain makes; `Auth.FreelancerStored` states its fields |
| `Auth.NewClient` | talentflow-backend/src/main/java/com/example/talentflowbackend/service/AuthService.java:37-44 | the client the builder chain makes; `Auth.ClientStored` states its fields |
| `Auth.NewAdmin` | talentflow-backend/src/main/java/com/example/talentflowbackend/service/AuthService.java:63-69 | the admin the builder chain makes; `Auth.AdminCodeGate` states its fields |
| `Auth.Register` | talentflow-backend/src/main/java/com/example/talentflowbackend/service/AuthService.java:31-33 | `repository.save`, then the token and the response; `Auth.RegisterOutcome` states both endings |
| `Auth.RegisterFreelancerReply` | talentflow-backend/src/main/java/com/example/talentflowbackend/service/AuthService.java:19-34 | `registerFreelancer` as a function of the table; `Auth.FreelancerStored` and `Auth.PasswordAlwaysEncoded` state its result |
| `Auth.RegisterClientReply` | talentflow-backend/src/main/java/com/example/talentflowbackend/service/AuthService.java:36-48 | `registerClient` as a function of the table; `Auth.ClientStored` and `Auth.PasswordAlwaysEncoded` state its result |
| `Auth.RegisterAdminReply` | talentflow-backend/src/main/java/com/example/talentflowbackend/service/AuthService.java:57-74 | `registerAdmin`, code gate first, as a function of the table; `Auth.AdminCodeGate` states its result |
| `Auth.LoginResult` | talentflow-backend/src/main/java/com/example/talentflowbackend/service/AuthService.java:50-55 | `login`: the manager, then the lookup, then the token; `Auth.LoginOutcome` states its result |
| `Auth.ResponseRoleIsAuthority` | talentflow-backend/src/main/java/com/example/talentflowbackend/service/AuthService.java:33 | `ROLE_` plus the response role is the stored user's authority |
| `Auth.FreelancerStored` | talentflow-backend/src/main/java/com/example/talentflowbackend/service/AuthService.java:19-34 | a FREELANCER is stored with the request's profile fields, the password encoded and no client or admin fields; the response role is "FREELANCER" |
| `Auth.ClientStored` | talentflow-backend/src/main/java/com/example/talentflowbackend/service/AuthService.java:36-48 | a CLIENT is stored with the request's name, email, company and phone, the password encoded; the response role is "CLIENT" |
| `Auth.AdminCodeGate` | talentflow-backend/src/main/java/com/example/talentflowbackend/service/AuthService.java:57-74 | success exactly for the code "TALENTAI_SECRET_2024" on a free email; a wrong code throws "Invalid Admin Registration Code!" with the table untouched; an admin keeps its code; response role "ADMIN" |
| `Auth.PasswordAlwaysEncoded` | talentflow-backend/src/main/java/com/example/talentflowbackend/service/AuthService.java:23 | every registration stores `encode(password)`, never the raw value |
| `Auth.LoginOutcome` | talentflow-backend/src/main/java/com/example/talentflowbackend/service/AuthService.java:50-55 | login succeeds exactly when the manager accepts and the email has a row; a refusal gives an authentication failure; success answers for the stored user |
| `Auth.UnknownEmailIsAuthenticationFailure` | talentflow-backend/src/main/java/com/example/talentflowbackend/service/AuthService.java:51-52 | with a manager that refuses every email without a row, no request fails with `NoSuchElement`, and every failure is an authentication failure |
| `Auth.UsernameFindsUser` | talentflow-backend/src/main/java/com/example/talentflowbackend/entity/User.java:55-58 | in a table keyed by email, a stored user's user name is in the table and finds that very user |
| `Auth.RegisterThenLogin` | talentflow-backend/src/main/java/com/example/talentflowbackend/service/AuthService.java:36-55 | a client who has just registered and is authenticated logs in as the very user stored: both answers are `generateToken` of that user with role "CLIENT" (tokens are a function of the user alone, see Left out) |
| `Auth.UserRepository.constructor` | talentflow-backend/src/main/java/com/example/talentflowbackend/entity/User.java:23-24 | the table `repository.save` (`AuthService.java:31`, 45, 71) writes to starts empty and keyed by email |
| `Auth.UserRepository.Save` | talentflow-backend/src/main/java/com/example/talentflowbackend/service/AuthService.java:31 | `repository.save`, called here and at lines 45 and 71, inserts under a free email, or the unique key on `email` (`User.java:23-24`) refuses it and nothing is stored |
| `Auth.UserRepository.FindByEmail` | talentflow-backend/src/main/java/com/example/talentflowbackend/service/AuthService.java:52 | `findByEmail` finds exactly the stored emails, and the row found has that email |
| `Auth.AuthService.constructor` | talentflow-backend/src/main/java/com/example/talentflowbackend/service/AuthService.java:14-17 | the service holds its repository, encoder, token generator and authentication manager |
| `Auth.AuthService.RegisterFreelancer` | talentflow-backend/src/main/java/com/example/talentflowbackend/service/AuthService.java:19-34 | the answer and the new table are those of the freelancer registration, and the table stays keyed by email |
| `Auth.AuthService.RegisterClient` | talentflow-backend/src/main/java/com/example/talentflowbackend/service/AuthService.java:36-48 | the answer and the new table are those of the client registration, and the table stays keyed by email |
| `Auth.AuthService.RegisterAdmin` | talentflow-backend/src/main/java/com/example/talentflowbackend/service/AuthService.java:57-74 | the answer and the new table are those of the gated admin registration |
| `Auth.AuthService.Login` | talentflow-backend/src/main/java/com/example/talentflowbackend/service/AuthService.java:50-55 | login changes nothing and answers as the login function says |
| `EndToEnd.Respond` | talentflow-backend/src/main/java/com/example/talentflowbackend/controller/AuthController.java:16-34 | every endpoint's `ResponseEntity.ok` of the service's answer, or the exception advice's response (`GlobalExceptionHandler.java:10-18`) when it threw: a response is ok exactly when the service returned rather than threw |
| `EndToEnd.RespondReceived` | talentflow-backend/src/main/java/com/example/talentflowbackend/controller/AuthController.java:16-34 | a page reads a success as the issued token and role, and a thrown exception as a refusal with the handler's message |
| `EndToEnd.AdminRequestOf` | talentflow-backend/src/main/java/com/example/talentflowbackend/controller/AuthController.java:27 | `@RequestBody AdminRegRequest`: the four request fields read from the page's JSON body by name |
| `EndToEnd.ClientRequestOf` | talentflow-backend/src/main/java/com/example/talentflowbackend/controller/AuthController.java:22 | `@RequestBody ClientRegRequest`: the five request fields read from the body by name |
| `EndToEnd.LoginRequestOf` | talentflow-backend/src/main/java/com/example/talentflowbackend/controller/AuthController.java:32 | `@RequestBody LoginRequest`: email and password read from the body |
| `EndToEnd.AdminOutcome` | my-react-app/src/pages/AdminRegistrationPage.js:321-330 | what the admin page's `fetch` and `response.json()` give for its form, through the service and the controller |
| `EndToEnd.LoginPageOutcome` | my-react-app/src/pages/FreelancerLoginPage.js:291-302 | what a login page's `fetch` and `response.json()` give for its credentials |
| `EndToEnd.AdminBodyExtrasIgnored` | my-react-app/src/pages/AdminRegistrationPage.js:327 | department, confirmation and terms are never bound to the admin request |
| `EndToEnd.WrongAdminCodeShown` | talentflow-backend/src/main/java/com/example/talentflowbackend/service/AuthService.java:59-61 | a form the page accepts with a wrong code shows "Invalid Admin Registration Code!" under `submit`, not the page's fallback; nothing is stored |
| `EndToEnd.AdminRegistered` | talentflow-backend/src/main/java/com/example/talentflowbackend/service/AuthService.java:71-73 | the right code on a free email stores the issued token and `userRole` "ADMIN" and shows success |
| `EndToEnd.ClientRegistered` | talentflow-backend/src/main/java/com/example/talentflowbackend/service/AuthService.java:45-47 | a free email stores `userRole` "CLIENT"; a taken one shows the database's message or the page's fallback |
| `EndToEnd.RefusedLoginShown` | talentflow-backend/src/main/java/com/example/talentflowbackend/exception/GlobalExceptionHandler.java:15-18 | refused credentials on the freelancer login page show "Invalid email or password." and store nothing |
| `EndToEnd.AdminLoginIgnoresRole` | my-react-app/src/pages/AdminLoginPage.js:292-300 | any accepted login on the admin page navigates to the admin dashboard and stores the account's real role |


## Left out

- JSX rendering, styling, the home page and the route table in `App.js`: presentation, or React Router behaviour outside this code.
- `fetch`, `response.json()`, `localStorage` failures and `navigate`: taken in as the `Outcome`, a `Storage` object and a navigation output. A storage write that throws is not modelled.
- The `setTimeout` delays of the delay-based handlers, and any interleaving of asynchronous updates: timing only. Double submission is excluded by the `!isSubmitting` precondition, which stands for the disabled button.
- The delay-based `handleSubmit` of the two login pages and of the client registration page (for example `FreelancerLoginPage.js:41-66`). Nothing in them can throw, so they always end as an ok answer with no storage write. `Submission.SimulatedIsOkWithoutStorage` proves this for the registration flows; the fetch-based handlers of these pages are modelled.
- The unreachable catch messages of the delay-based handlers (for example `AdminRegistrationPage.js:90-93`): nothing in their `try` blocks can throw.
- The module-level `handleSubmit` of `FreelancerRegistrationPage.js:433-450`. It is dead code: it skips validation, stores only the token and ignores refusals.
- `AuthController` routing: each endpoint only forwards to the service. `EndToEnd` binds each page's body straight to the matching request type.
- Password hashing, JWT contents and the `AuthenticationManager`'s internals: they are the `encode`, `generateToken` and `authenticate` inputs.
- `Auth.RegisterThenLogin`: `generateToken` is a function of the user alone. `JwtService.java` is not part of this model, and the issue and expiry times a JWT generator usually stamps from the clock are not modelled, so the model does not say whether two tokens issued for the same user at different times differ.
- The generated `id` column and null request fields: every request field is a string, and `Role` is never null, because the service always sets it.
- `AdminRegRequest.java`, `LoginRequest.java` and `Role.java` are not part of this model. Their shapes come from the getters `AuthService` calls and from the role names it uses. `EndToEnd.AdminBodyExtrasIgnored` rests on that assumed shape: full name, email, password and admin code.
- The database's wording for a duplicate email is an input, the repository's `violation` message.
- `Auth.UserRepository.Save`: models `save` of a new entity only; updating an existing row by its id is never used by the service.
- `FreelancerRegistrationPage.Component.AddSkill`: requires a popular skill, because `addSkill` is only called from the popular-skill buttons.
- `FreelancerRegistrationPage.Component.HandleChange`: requires an input other than the skills text, because the skills input is wired to `handleSkillsChange` instead.
