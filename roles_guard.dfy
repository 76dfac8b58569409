/** The role guard (roles.guard.ts): an allow-or-throw decision over a route's declared roles. */
module RolesGuard {
  import opened Wrappers
  import opened Errors
  import opened Text
  import opened Jwt
  import opened JwtStrategy

  /** The message of the UnauthorizedException the JWT guard throws. */
  const JwtRejected: string := "Unauthorized"

  const NoRolMessage: string := "No se pudo validar el rol del usuario."

  function DeniedMessage(roles: seq<string>): string
  {
    "Acceso denegado: requiere rol " + Join(roles, " o ")
  }

  /** The request has a user whose `rol` is truthy. */
  predicate HasRol(user: Option<User>)
  {
    user.Some? && user.value.rol.Some? && user.value.rol.value != ""
  }

  /** The request's user carries exactly this role. */
  predicate RolIs(user: Option<User>, role: string)
  {
    user.Some? && user.value.rol == Some(role)
  }

  /**
   * canActivate. `roles` is the @Roles metadata of the handler, None when it has none. The
   * guard returns true or throws Forbidden; it never returns false.
   */
  function CanActivate(roles: Option<seq<string>>, user: Option<User>): (r: Result<bool, Error>)
    ensures r.Ok? ==> r.value
    ensures roles.None? ==> r == Ok(true)
    ensures roles.Some? && !HasRol(user) ==> r == Err(Forbidden(NoRolMessage))
    ensures roles.Some? && HasRol(user) ==> (r.Ok? <==> user.value.rol.value in roles.value)
    ensures roles.Some? && HasRol(user) && user.value.rol.value !in roles.value ==>
              r == Err(Forbidden(DeniedMessage(roles.value)))
  {
    if roles.None? then Ok(true)
    else if !HasRol(user) then Err(Forbidden(NoRolMessage))
    else if user.value.rol.value !in roles.value then Err(Forbidden(DeniedMessage(roles.value)))
    else Ok(true)
  }

  /** With roles declared, access is granted exactly to the listed roles. */
  lemma AllowedIffListed(roles: seq<string>, user: Option<User>)
    ensures CanActivate(Some(roles), user).Ok? <==>
              exists k :: 0 <= k < |roles| && roles[k] != "" && RolIs(user, roles[k])
  {
    if CanActivate(Some(roles), user).Ok? {
      var k :| 0 <= k < |roles| && roles[k] == user.value.rol.value;
    }
  }

  /** A declared but empty role list denies every request. */
  lemma EmptyRolesDenyAll(user: Option<User>)
    ensures CanActivate(Some([]), user).Err?
  {
  }

  /** A denial names every role the route accepts. */
  lemma DenialNamesRoles(roles: seq<string>, user: Option<User>, k: int)
    requires HasRol(user) && user.value.rol.value !in roles
    requires 0 <= k < |roles|
    ensures CanActivate(Some(roles), user).Err?
    ensures Contains(CanActivate(Some(roles), user).error.message, roles[k])
  {
    var m := DeniedMessage(roles);
    JoinContains(roles, " o ", k);
    var i :| 0 <= i <= |Join(roles, " o ")| && OccursAt(Join(roles, " o "), roles[k], i);
    OccursAfter("Acceso denegado: requiere rol ", Join(roles, " o "), roles[k], i);
  }

  /** The decision depends on the user's role only, not on its id or correo. */
  lemma DecisionIgnoresIdentity(roles: Option<seq<string>>, a: User, b: User)
    requires a.rol == b.rol
    ensures CanActivate(roles, Some(a)) == CanActivate(roles, Some(b))
  {
  }

  /**
   * `@UseGuards(JwtAuthGuard, RolesGuard)` on a controller: the JWT guard (jwt-auth.guard.ts)
   * runs first and rejects a request without a token or with one signed under another key;
   * only a request it lets through reaches the role guard, with the user `validate` built.
   */
  function GuardChain(s: Strategy, t: Option<Token>, roles: Option<seq<string>>): (r: Result<bool, Error>)
    ensures r.Ok? ==> r.value && t.Some? && t.value.key == s.secret
    ensures t.None? || t.value.key != s.secret ==> r == Err(Unauthorized(JwtRejected))
    ensures t.Some? && t.value.key == s.secret ==> r == CanActivate(roles, Some(Validate(t.value.claims)))
  {
    if t.None? then Err(Unauthorized(JwtRejected))
    else
      match Authenticate(s, t.value)
      case None => Err(Unauthorized(JwtRejected))
      case Some(user) => CanActivate(roles, Some(user))
  }

  /**
   * Through both guards, a route with roles declared admits exactly the requests whose token
   * is valid and whose claims carry one of the listed non-empty roles.
   */
  lemma ChainAdmitsIff(s: Strategy, t: Option<Token>, roles: seq<string>)
    ensures GuardChain(s, t, Some(roles)).Ok? <==>
              t.Some? && t.value.key == s.secret &&
              exists k :: 0 <= k < |roles| && roles[k] != "" && t.value.claims.rol == Some(roles[k])
  {
    if t.Some? && t.value.key == s.secret {
      AllowedIffListed(roles, Some(Validate(t.value.claims)));
    }
  }
}
