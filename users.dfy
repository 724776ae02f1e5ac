/**
 * The `User` entity: its role, the Spring Security view of it (one granted
 * authority derived from the role, the email as user name) and the four
 * account-status flags, which are true for every user.
 */
module Users {
  import opened Wrappers

  /** The three roles, stored by name. */
  datatype Role = Freelancer | Client | Admin

  /** `role.name()`. */
  function RoleName(role: Role): string {
    match role
    case Freelancer => "FREELANCER"
    case Client => "CLIENT"
    case Admin => "ADMIN"
  }

  /** `Role.valueOf(name)`, with `None` where Java throws. */
  function RoleNamed(name: string): Option<Role> {
    if name == "FREELANCER" then Some(Freelancer)
    else if name == "CLIENT" then Some(Client)
    else if name == "ADMIN" then Some(Admin)
    else None
  }

  /** A role's name reads back as that role, and only role names read back at all. */
  lemma RoleNameRoundTrip(role: Role, name: string)
    ensures RoleNamed(RoleName(role)) == Some(role)
    ensures RoleNamed(name).Some? ==> RoleName(RoleNamed(name).value) == name
  {
  }

  /** Roles with the same name are the same role. */
  lemma RoleNameInjective(a: Role, b: Role)
    ensures RoleName(a) == RoleName(b) <==> a == b
  {
    RoleNameRoundTrip(a, RoleName(b));
  }

  /**
   * A row of the `users` table. The database generates the `id`, which is
   * not part of this model; every text column other than `email` and
   * `password` may be null, written `None`.
   */
  datatype User = User(
    email: string,
    password: string,
    fullName: Option<string>,
    phoneNumber: Option<string>,
    role: Role,
    professionalTitle: Option<string>,
    skills: Option<string>,
    portfolioUrl: Option<string>,
    bio: Option<string>,
    companyName: Option<string>,
    adminCode: Option<string>)

  /** `SimpleGrantedAuthority`: an authority is its string. */
  datatype GrantedAuthority = SimpleGrantedAuthority(authority: string)

  const RolePrefix := "ROLE_"

  /** The role an authority string grants: `ROLE_` followed by a role name. */
  function AuthorityRole(a: GrantedAuthority): Option<Role> {
    if |RolePrefix| <= |a.authority| && a.authority[..|RolePrefix|] == RolePrefix
    then RoleNamed(a.authority[|RolePrefix|..])
    else None
  }

  /**
   * `getAuthorities`: exactly one authority, whose string starts with
   * `ROLE_` and grants the user's own role.
   */
  function Authorities(user: User): (r: seq<GrantedAuthority>)
    ensures |r| == 1
    ensures |RolePrefix| <= |r[0].authority| && r[0].authority[..|RolePrefix|] == RolePrefix
    ensures AuthorityRole(r[0]) == Some(user.role)
  {
    var a := RolePrefix + RoleName(user.role);
    assert a[..|RolePrefix|] == RolePrefix && a[|RolePrefix|..] == RoleName(user.role);
    [SimpleGrantedAuthority(a)]
  }

  /** Two users hold the same authorities exactly when they have the same role. */
  lemma AuthoritiesDetermineRole(u: User, v: User)
    ensures Authorities(u) == Authorities(v) <==> u.role == v.role
  {
    if Authorities(u) == Authorities(v) {
      assert AuthorityRole(Authorities(u)[0]) == AuthorityRole(Authorities(v)[0]);
    }
  }

  /** `getUsername`: a user signs in with their email. */
  function Username(user: User): string {
    user.email
  }

  predicate IsAccountNonExpired(user: User) { true }

  predicate IsAccountNonLocked(user: User) { true }

  predicate IsCredentialsNonExpired(user: User) { true }

  predicate IsEnabled(user: User) { true }

  /** No account is ever expired, locked, out of date in its credentials, or disabled. */
  lemma EveryAccountUsable(user: User)
    ensures IsAccountNonExpired(user) && IsAccountNonLocked(user)
    ensures IsCredentialsNonExpired(user) && IsEnabled(user)
  {
  }
}
