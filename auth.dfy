/**
 * `AuthService`: three registrations that build a user, save it and answer
 * with a token and the user's role name, and a login that authenticates,
 * looks the user up and answers the same way. The password encoder, the JWT
 * generator and the authentication manager are functions the service is
 * given; the repository is a table keyed by email. A thrown exception is a
 * `Failure` carrying it.
 */
module Auth {
  import opened Wrappers
  import opened Users
  import opened Exceptions

  datatype FreelancerRegRequest = FreelancerRegRequest(
    fullName: string, email: string, password: string, professionalTitle: string,
    phoneNumber: string, skills: string, portfolioUrl: string, bio: string)

  datatype ClientRegRequest = ClientRegRequest(
    fullName: string, email: string, password: string, companyName: string, phoneNumber: string)

  datatype AdminRegRequest = AdminRegRequest(fullName: string, email: string, password: string, adminCode: string)

  datatype LoginRequest = LoginRequest(email: string, password: string)

  datatype AuthResponse = AuthResponse(token: string, role: string)

  const AdminSecret := "TALENTAI_SECRET_2024"

  const InvalidAdminCode := "Invalid Admin Registration Code!"

  /** The `users` table, each row under its unique email. */
  type UserTable = map<string, User>

  /** Every row is stored under its own email, so no two rows share one. */
  predicate KeyedByEmail(users: UserTable) {
    forall e :: e in users ==> users[e].email == e
  }

  /** The freelancer the builder chain makes: its own fields copied, the password encoded. */
  function NewFreelancer(request: FreelancerRegRequest, encode: string -> string): User {
    User(request.email, encode(request.password), Some(request.fullName), Some(request.phoneNumber), Freelancer,
         Some(request.professionalTitle), Some(request.skills), Some(request.portfolioUrl), Some(request.bio),
         None, None)
  }

  /** The client the builder chain makes. */
  function NewClient(request: ClientRegRequest, encode: string -> string): User {
    User(request.email, encode(request.password), Some(request.fullName), Some(request.phoneNumber), Client,
         None, None, None, None, Some(request.companyName), None)
  }

  /** The admin the builder chain makes, keeping the code it was registered with. */
  function NewAdmin(request: AdminRegRequest, encode: string -> string): User {
    User(request.email, encode(request.password), Some(request.fullName), None, Admin,
         None, None, None, None, None, Some(request.adminCode))
  }

  /** What a service call returns or throws, with the table after it. */
  datatype Reply = Reply(result: Result<AuthResponse, Thrown>, users: UserTable)

  /**
   * `repository.save(user)`, then a token for that user and the response:
   * a taken email makes the insert fail and nothing is stored or issued.
   */
  function Register(users: UserTable, user: User, responseRole: string,
                    generateToken: User -> string, violation: string): Reply {
    if user.email in users then Reply(Failure(DataIntegrityViolation(violation)), users)
    else Reply(Success(AuthResponse(generateToken(user), responseRole)), users[user.email := user])
  }

  function RegisterFreelancerReply(users: UserTable, request: FreelancerRegRequest, encode: string -> string,
                                   generateToken: User -> string, violation: string): Reply {
    var user := NewFreelancer(request, encode);
    Register(users, user, RoleName(user.role), generateToken, violation)
  }

  function RegisterClientReply(users: UserTable, request: ClientRegRequest, encode: string -> string,
                               generateToken: User -> string, violation: string): Reply {
    var user := NewClient(request, encode);
    Register(users, user, RoleName(user.role), generateToken, violation)
  }

  /** `registerAdmin`: the code gate comes first, before anything is built or saved. */
  function RegisterAdminReply(users: UserTable, request: AdminRegRequest, encode: string -> string,
                              generateToken: User -> string, violation: string): Reply {
    if request.adminCode != AdminSecret then Reply(Failure(Runtime(InvalidAdminCode)), users)
    else Register(users, NewAdmin(request, encode), RoleName(Admin), generateToken, violation)
  }

  /**
   * `login`: the authentication manager first (`authenticate` gives the
   * message of the exception it throws, `None` when it accepts), then the
   * lookup by email, then the token.
   */
  function LoginResult(users: UserTable, request: LoginRequest, authenticate: (string, string) -> Option<string>,
                       generateToken: User -> string): Result<AuthResponse, Thrown> {
    var refusal := authenticate(request.email, request.password);
    if refusal.Some? then Failure(AuthenticationFailure(refusal.value))
    else if request.email !in users then Failure(NoSuchElement)
    else
      var user := users[request.email];
      Success(AuthResponse(generateToken(user), RoleName(user.role)))
  }

  /**
   * A registration either stores exactly the new user under its email and
   * answers with that user's token and role name, or fails and stores
   * nothing; the table stays keyed by email and every other row is kept.
   */
  lemma RegisterOutcome(users: UserTable, user: User, generateToken: User -> string, violation: string)
    requires KeyedByEmail(users)
    ensures var reply := Register(users, user, RoleName(user.role), generateToken, violation);
      && KeyedByEmail(reply.users)
      && (reply.result.Success? <==> user.email !in users)
      && (reply.result.Success? ==>
            && reply.users == users[user.email := user]
            && reply.result.value == AuthResponse(generateToken(reply.users[user.email]),
                                                 RoleName(reply.users[user.email].role)))
      && (reply.result.Failure? ==>
            reply.users == users && reply.result.error == DataIntegrityViolation(violation))
      && (forall e :: e in users && e != user.email ==> e in reply.users && reply.users[e] == users[e])
  {
  }

  /** The response's role grants what the stored user's single authority grants. */
  lemma ResponseRoleIsAuthority(users: UserTable, user: User, generateToken: User -> string, violation: string)
    ensures var reply := Register(users, user, RoleName(user.role), generateToken, violation);
      reply.result.Success? ==>
        Authorities(reply.users[user.email])[0].authority == RolePrefix + reply.result.value.role
  {
  }

  /**
   * `registerFreelancer` stores a FREELANCER whose profile fields are the
   * request's, with the password encoded and no client or admin fields.
   */
  lemma FreelancerStored(users: UserTable, request: FreelancerRegRequest, encode: string -> string,
                         generateToken: User -> string, violation: string)
    requires request.email !in users
    ensures var reply := RegisterFreelancerReply(users, request, encode, generateToken, violation);
      && reply.result == Success(AuthResponse(generateToken(reply.users[request.email]), "FREELANCER"))
      && var u := reply.users[request.email];
      && u.role == Freelancer && u.email == request.email && u.password == encode(request.password)
      && u.fullName == Some(request.fullName) && u.phoneNumber == Some(request.phoneNumber)
      && u.professionalTitle == Some(request.professionalTitle) && u.skills == Some(request.skills)
      && u.portfolioUrl == Some(request.portfolioUrl) && u.bio == Some(request.bio)
      && u.companyName == None && u.adminCode == None
  {
  }

  /** `registerClient` stores a CLIENT with the request's name, company and phone and the password encoded. */
  lemma ClientStored(users: UserTable, request: ClientRegRequest, encode: string -> string,
                     generateToken: User -> string, violation: string)
    requires request.email !in users
    ensures var reply := RegisterClientReply(users, request, encode, generateToken, violation);
      && reply.result == Success(AuthResponse(generateToken(reply.users[request.email]), "CLIENT"))
      && var u := reply.users[request.email];
      && u.role == Client && u.email == request.email && u.password == encode(request.password)
      && u.fullName == Some(request.fullName) && u.companyName == Some(request.companyName)
      && u.phoneNumber == Some(request.phoneNumber)
      && u.professionalTitle == None && u.skills == None && u.portfolioUrl == None && u.bio == None
      && u.adminCode == None
  {
  }

  /**
   * The admin code gate: a wrong code throws "Invalid Admin Registration
   * Code!" and the table is untouched; the right code on a free email
   * stores an ADMIN that keeps the code, and the response role is "ADMIN".
   */
  lemma AdminCodeGate(users: UserTable, request: AdminRegRequest, encode: string -> string,
                      generateToken: User -> string, violation: string)
    ensures var reply := RegisterAdminReply(users, request, encode, generateToken, violation);
      && (reply.result.Success? <==> request.adminCode == AdminSecret && request.email !in users)
      && (request.adminCode != AdminSecret ==> reply == Reply(Failure(Runtime(InvalidAdminCode)), users))
      && (reply.result.Success? ==>
            && reply.result.value == AuthResponse(generateToken(reply.users[request.email]), "ADMIN")
            && var u := reply.users[request.email];
            && u.role == Admin && u.email == request.email && u.password == encode(request.password)
            && u.fullName == Some(request.fullName) && u.adminCode == Some(AdminSecret)
            && u.phoneNumber == None && u.companyName == None)
  {
  }

  /** No registration stores the raw password: the stored one is always the encoder's output. */
  lemma PasswordAlwaysEncoded(users: UserTable, f: FreelancerRegRequest, c: ClientRegRequest, a: AdminRegRequest,
                              encode: string -> string, generateToken: User -> string, violation: string)
    ensures var r := RegisterFreelancerReply(users, f, encode, generateToken, violation);
      r.result.Success? ==> r.users[f.email].password == encode(f.password)
    ensures var r := RegisterClientReply(users, c, encode, generateToken, violation);
      r.result.Success? ==> r.users[c.email].password == encode(c.password)
    ensures var r := RegisterAdminReply(users, a, encode, generateToken, violation);
      r.result.Success? ==> r.users[a.email].password == encode(a.password)
  {
  }

  /**
   * `login` without an authenticated user or without a row for the email
   * throws, so no token is produced; otherwise it answers for the stored
   * user, with that user's role name.
   */
  lemma LoginOutcome(users: UserTable, request: LoginRequest, authenticate: (string, string) -> Option<string>,
                     generateToken: User -> string)
    requires KeyedByEmail(users)
    ensures var r := LoginResult(users, request, authenticate, generateToken);
      && (r.Success? <==> authenticate(request.email, request.password).None? && request.email in users)
      && (authenticate(request.email, request.password).Some? ==>
            r == Failure(AuthenticationFailure(authenticate(request.email, request.password).value)))
      && (r.Success? ==>
            var u := users[request.email];
            && Username(u) == request.email
            && r.value == AuthResponse(generateToken(u), RoleName(u.role)))
  {
  }

  /**
   * With an authentication manager that, like Spring's, refuses every email
   * that has no row, a login never reaches the `orElseThrow`: whatever the
   * request, it never fails with `NoSuchElement`, and every failure is an
   * authentication failure.
   */
  lemma UnknownEmailIsAuthenticationFailure(users: UserTable, request: LoginRequest,
                                            authenticate: (string, string) -> Option<string>,
                                            generateToken: User -> string)
    requires forall e, p :: e !in users ==> authenticate(e, p).Some?
    ensures var r := LoginResult(users, request, authenticate, generateToken);
      && r != Failure(NoSuchElement)
      && (r.Failure? ==> IsAuthentication(r.error))
  {
    if request.email !in users {
      assert authenticate(request.email, request.password).Some?;
    }
  }

  /** In a table keyed by email, a stored user's user name is the key that finds that very user. */
  lemma UsernameFindsUser(users: UserTable, u: User)
    requires KeyedByEmail(users) && u in users.Values
    ensures Username(u) in users && users[Username(u)] == u
  {
    var e :| e in users && users[e] == u;
    assert users[e].email == e;
  }

  /**
   * A client who has just registered, once authenticated, logs in as the
   * very user that was stored: both answers carry `generateToken` of that
   * user and the role "CLIENT".
   */
  lemma RegisterThenLogin(users: UserTable, request: ClientRegRequest, encode: string -> string,
                          generateToken: User -> string, violation: string,
                          authenticate: (string, string) -> Option<string>)
    requires request.email !in users && authenticate(request.email, request.password).None?
    ensures var reply := RegisterClientReply(users, request, encode, generateToken, violation);
      var u := NewClient(request, encode);
      && request.email in reply.users && reply.users[request.email] == u
      && reply.result == Success(AuthResponse(generateToken(u), "CLIENT"))
      && LoginResult(reply.users, LoginRequest(request.email, request.password), authenticate, generateToken)
           == Success(AuthResponse(generateToken(u), "CLIENT"))
  {
  }

  /** The `users` table behind `UserRepository`. */
  class UserRepository {
    var users: UserTable
    /** The message the database reports when the unique key on `email` refuses an insert. */
    const violation: string

    ghost predicate Valid()
      reads this
    {
      KeyedByEmail(users)
    }

    constructor(violation: string)
      ensures Valid() && users == map[] && this.violation == violation
    {
      users := map[];
      this.violation := violation;
    }

    /** `save` of a new user: inserted under its email, or refused by the unique key with nothing stored. */
    method Save(user: User) returns (r: Result<User, Thrown>)
      requires Valid()
      modifies this
      ensures Valid()
      ensures r.Success? <==> user.email !in old(users)
      ensures r.Success? ==> r.value == user && users == old(users)[user.email := user]
      ensures r.Failure? ==> r.error == DataIntegrityViolation(violation) && users == old(users)
    {
      if user.email in users {
        return Failure(DataIntegrityViolation(violation));
      }
      users := users[user.email := user];
      return Success(user);
    }

    /** `findByEmail`: the row stored under the email, if any; its email is the one asked for. */
    function FindByEmail(email: string): (r: Option<User>)
      reads this
      ensures r.Some? <==> email in users
      ensures r.Some? ==> r.value == users[email]
      ensures Valid() && r.Some? ==> r.value.email == email
    {
      if email in users then Some(users[email]) else None
    }
  }

  /** The service with its collaborators: the repository, the encoder, the token generator and the authentication manager. */
  class AuthService {
    const repository: UserRepository
    const encode: string -> string
    const generateToken: User -> string
    const authenticate: (string, string) -> Option<string>

    constructor(repository: UserRepository, encode: string -> string, generateToken: User -> string,
                authenticate: (string, string) -> Option<string>)
      ensures this.repository == repository && this.encode == encode
      ensures this.generateToken == generateToken && this.authenticate == authenticate
    {
      this.repository := repository;
      this.encode := encode;
      this.generateToken := generateToken;
      this.authenticate := authenticate;
    }

    method RegisterFreelancer(request: FreelancerRegRequest) returns (r: Result<AuthResponse, Thrown>)
      requires repository.Valid()
      modifies repository
      ensures repository.Valid()
      ensures Reply(r, repository.users)
        == RegisterFreelancerReply(old(repository.users), request, encode, generateToken, repository.violation)
    {
      var user := NewFreelancer(request, encode);
      var saved := repository.Save(user);
      if saved.Failure? {
        return Failure(saved.error);
      }
      var jwtToken := generateToken(user);
      return Success(AuthResponse(jwtToken, RoleName(user.role)));
    }

    method RegisterClient(request: ClientRegRequest) returns (r: Result<AuthResponse, Thrown>)
      requires repository.Valid()
      modifies repository
      ensures repository.Valid()
      ensures Reply(r, repository.users)
        == RegisterClientReply(old(repository.users), request, encode, generateToken, repository.violation)
    {
      var user := NewClient(request, encode);
      var saved := repository.Save(user);
      if saved.Failure? {
        return Failure(saved.error);
      }
      var jwtToken := generateToken(user);
      return Success(AuthResponse(jwtToken, RoleName(user.role)));
    }

    method RegisterAdmin(request: AdminRegRequest) returns (r: Result<AuthResponse, Thrown>)
      requires repository.Valid()
      modifies repository
      ensures repository.Valid()
      ensures Reply(r, repository.users)
        == RegisterAdminReply(old(repository.users), request, encode, generateToken, repository.violation)
    {
      if request.adminCode != AdminSecret {
        return Failure(Runtime(InvalidAdminCode));
      }
      var user := NewAdmin(request, encode);
      var saved := repository.Save(user);
      if saved.Failure? {
        return Failure(saved.error);
      }
      var jwtToken := generateToken(user);
      return Success(AuthResponse(jwtToken, RoleName(Admin)));
    }

    /** `login` reads the repository and changes nothing. */
    method Login(request: LoginRequest) returns (r: Result<AuthResponse, Thrown>)
      requires repository.Valid()
      ensures r == LoginResult(repository.users, request, authenticate, generateToken)
    {
      var refusal := authenticate(request.email, request.password);
      if refusal.Some? {
        return Failure(AuthenticationFailure(refusal.value));
      }
      var found := repository.FindByEmail(request.email);
      if found.None? {
        return Failure(NoSuchElement);
      }
      var user := found.value;
      var jwtToken := generateToken(user);
      return Success(AuthResponse(jwtToken, RoleName(user.role)));
    }
  }
}
