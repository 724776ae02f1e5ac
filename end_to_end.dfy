/**
 * The pages and the service put together: a page's JSON body bound to the
 * service's request type, the service's answer serialised by the controller
 * (or by the exception advice), and that response read by the page.
 */
module EndToEnd {
  import opened Wrappers
  import opened Users
  import opened Exceptions
  import opened ExceptionHandler
  import opened Auth
  import opened FieldStore
  import opened Submission
  import Http
  import AdminRegistrationPage
  import ClientRegistrationPage
  import FreelancerLoginPage
  import AdminLoginPage

  /** The service's collaborators: encoder, token generator, authentication manager, unique-key message. */
  datatype Backend = Backend(encode: string -> string, generateToken: User -> string,
                             authenticate: (string, string) -> Option<string>, violation: string)

  /**
   * `ResponseEntity.ok(response)` with the response written as JSON, or the
   * exception advice's answer when the service threw.
   */
  function Respond(result: Result<AuthResponse, Thrown>): (r: Http.Response)
    ensures result.Success? <==> Http.IsOk(r)
  {
    match result
    case Success(a) => Http.Response(200, Some(map["token" := a.token, "role" := a.role]))
    case Failure(e) => Handle(e)
  }

  /**
   * A page reads a success as the token and role the service issued, and a
   * thrown exception as a refusal with the advice's message.
   */
  lemma RespondReceived(result: Result<AuthResponse, Thrown>)
    ensures result.Success? ==> Receive(Respond(result)) == Ok(result.value.token, result.value.role)
    ensures result.Failure? ==>
      Receive(Respond(result)) ==
        NotOk(Some(if IsAuthentication(result.error) then AuthFailureMessage else Message(result.error)))
  {
    if result.Failure? {
      HandledIsRefusal(result.error);
    }
  }

  /** `@RequestBody` binding of the admin page's body: the DTO's fields by name, every other key ignored. */
  function AdminRequestOf(body: FormData): AdminRegRequest {
    AdminRegRequest(TextOf(body, "fullName"), TextOf(body, "email"), TextOf(body, "password"), TextOf(body, "adminCode"))
  }

  /** `@RequestBody` binding of the client page's body. */
  function ClientRequestOf(body: FormData): ClientRegRequest {
    ClientRegRequest(TextOf(body, "fullName"), TextOf(body, "email"), TextOf(body, "password"),
                     TextOf(body, "companyName"), TextOf(body, "phoneNumber"))
  }

  /** `@RequestBody` binding of a login page's body. */
  function LoginRequestOf(body: FormData): LoginRequest {
    LoginRequest(TextOf(body, "email"), TextOf(body, "password"))
  }

  /** The outcome the admin registration page sees for its form. */
  function AdminOutcome(b: Backend, users: UserTable, form: FormData): Outcome {
    Receive(Respond(RegisterAdminReply(users, AdminRequestOf(form), b.encode, b.generateToken, b.violation).result))
  }

  /**
   * The department, the confirmation and the terms box are checked by the
   * page but never reach the server: changing any key other than the four
   * the request type has leaves the bound request as it was.
   */
  lemma AdminBodyExtrasIgnored(form: FormData, key: string, value: FieldValue)
    requires key != "fullName" && key != "email" && key != "password" && key != "adminCode"
    ensures AdminRequestOf(form[key := value]) == AdminRequestOf(form)
  {
    StoreKeepsOthers(form, key, value, "fullName");
    StoreKeepsOthers(form, key, value, "email");
    StoreKeepsOthers(form, key, value, "password");
    StoreKeepsOthers(form, key, value, "adminCode");
  }

  /**
   * A form the page accepts but whose code is not the secret comes back as
   * a 400 whose message the page shows under `submit`: "Invalid Admin
   * Registration Code!", not the page's own fallback; nothing is stored.
   */
  lemma WrongAdminCodeShown(b: Backend, users: UserTable, before: Status, storage: map<string, string>, form: FormData)
    requires AdminRegistrationPage.Errors(form) == map[]
    requires TextOf(form, "adminCode") != AdminSecret
    ensures var e := AdminRegistrationPage.Submit(before, storage, form, AdminOutcome(b, users, form));
      && e.status.errors == map[SubmitKey := InvalidAdminCode]
      && !e.status.isSubmitting && e.storage == storage
  {
    var reply := RegisterAdminReply(users, AdminRequestOf(form), b.encode, b.generateToken, b.violation);
    AdminCodeGate(users, AdminRequestOf(form), b.encode, b.generateToken, b.violation);
    RespondReceived(reply.result);
    AdminRegistrationPage.FailureMessages(before, storage, form, AdminOutcome(b, users, form));
  }

  /**
   * The secret code on a free email registers an admin: the page stores the
   * token issued for the stored user and the role "ADMIN", and shows the
   * success view.
   */
  lemma AdminRegistered(b: Backend, users: UserTable, before: Status, storage: map<string, string>, form: FormData)
    requires AdminRegistrationPage.Errors(form) == map[]
    requires TextOf(form, "adminCode") == AdminSecret && TextOf(form, "email") !in users
    ensures var reply := RegisterAdminReply(users, AdminRequestOf(form), b.encode, b.generateToken, b.violation);
      var e := AdminRegistrationPage.Submit(before, storage, form, AdminOutcome(b, users, form));
      && e.status.registrationSuccess && e.status.errors == map[]
      && e.storage[RoleKey] == "ADMIN"
      && e.storage[TokenKey] == b.generateToken(reply.users[TextOf(form, "email")])
  {
    var reply := RegisterAdminReply(users, AdminRequestOf(form), b.encode, b.generateToken, b.violation);
    AdminCodeGate(users, AdminRequestOf(form), b.encode, b.generateToken, b.violation);
    RespondReceived(reply.result);
    AdminRegistrationPage.OkShowsSuccess(before, storage, form, reply.result.value.token, reply.result.value.role);
  }

  /**
   * A client registration on a free email stores the role "CLIENT" in the
   * browser; on a taken email the page shows the database's message, or its
   * fallback when that message is empty.
   */
  lemma ClientRegistered(b: Backend, users: UserTable, before: Status, storage: map<string, string>, form: FormData)
    requires ClientRegistrationPage.Errors(form) == map[]
    ensures var reply := RegisterClientReply(users, ClientRequestOf(form), b.encode, b.generateToken, b.violation);
      var e := ClientRegistrationPage.Submit(before, storage, form, Receive(Respond(reply.result)));
      && (TextOf(form, "email") !in users ==>
            e.status.registrationSuccess && e.storage[RoleKey] == "CLIENT")
      && (TextOf(form, "email") in users ==>
            e.storage == storage
            && e.status.errors == map[SubmitKey := MessageOr(Some(b.violation), ClientRegistrationPage.ClientFlow.fallback)])
  {
    var reply := RegisterClientReply(users, ClientRequestOf(form), b.encode, b.generateToken, b.violation);
    RespondReceived(reply.result);
    var outcome := Receive(Respond(reply.result));
    if TextOf(form, "email") in users {
      ClientRegistrationPage.FailureMessages(before, storage, form, outcome);
    } else {
      ClientStored(users, ClientRequestOf(form), b.encode, b.generateToken, b.violation);
      ClientRegistrationPage.OkShowsSuccess(before, storage, form, outcome.token, outcome.role);
    }
  }

  /** The outcome a login page sees for its form. */
  function LoginPageOutcome(b: Backend, users: UserTable, body: FormData): Outcome {
    Receive(Respond(LoginResult(users, LoginRequestOf(body), b.authenticate, b.generateToken)))
  }

  /**
   * Refused credentials on the freelancer login page show the server's
   * "Invalid email or password.", not the page's fallback, and store nothing.
   */
  lemma RefusedLoginShown(b: Backend, users: UserTable, before: Status, storage: map<string, string>, form: FormData)
    requires FreelancerLoginPage.Errors(form) == map[]
    requires b.authenticate(TextOf(form, "email"), TextOf(form, "password")).Some?
    ensures var e := FreelancerLoginPage.Submit(before, storage, form,
                                                LoginPageOutcome(b, users, FreelancerLoginPage.Credentials(form)));
      && e.status.errors == map[SubmitKey := AuthFailureMessage] && e.storage == storage && e.navigation == None
  {
    var body := FreelancerLoginPage.Credentials(form);
    assert LoginRequestOf(body) == LoginRequest(TextOf(form, "email"), TextOf(form, "password"));
    RespondReceived(LoginResult(users, LoginRequestOf(body), b.authenticate, b.generateToken));
    FreelancerLoginPage.FailureMessages(before, storage, form, LoginPageOutcome(b, users, body));
  }

  /**
   * The admin login page asks for the admin dashboard after any accepted
   * login: the service answers for whatever role the account has, and the
   * page stores that role without looking at it.
   */
  lemma AdminLoginIgnoresRole(b: Backend, users: UserTable, before: Status, storage: map<string, string>, form: FormData)
    requires KeyedByEmail(users)
    requires AdminLoginPage.Errors(form) == map[]
    requires b.authenticate(TextOf(form, "email"), TextOf(form, "password")).None?
    requires TextOf(form, "email") in users
    ensures var e := AdminLoginPage.Submit(before, storage, form,
                                           LoginPageOutcome(b, users, AdminLoginPage.Credentials(form)));
      && e.navigation == Some(AdminLoginPage.Dashboard)
      && e.storage[RoleKey] == RoleName(users[TextOf(form, "email")].role)
  {
    var body := AdminLoginPage.Credentials(form);
    assert LoginRequestOf(body) == LoginRequest(TextOf(form, "email"), TextOf(form, "password"));
    RespondReceived(LoginResult(users, LoginRequestOf(body), b.authenticate, b.generateToken));
  }
}
