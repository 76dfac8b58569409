/** Route access of the customer controller (cliente.controller.ts). */
module ClienteController {
  import opened Wrappers
  import opened Errors
  import opened Jwt
  import opened JwtStrategy
  import opened RolesGuard

  datatype Route = Create | FindAll | FindOne | Update | Remove | PerfilMe

  /** The @Roles metadata of each handler; POST create declares none. */
  function DeclaredRoles(r: Route): Option<seq<string>>
  {
    match r
    case Create => None
    case FindAll => Some(["admin"])
    case FindOne => Some(["cliente", "admin"])
    case Update => Some(["cliente", "admin"])
    case Remove => Some(["admin"])
    case PerfilMe => Some(["cliente"])
  }

  function Access(r: Route, user: Option<User>): Result<bool, Error>
  {
    CanActivate(DeclaredRoles(r), user)
  }

  /** A request to route r through the class-level JWT guard and then the role guard. */
  function Request(r: Route, s: Strategy, t: Option<Token>): Result<bool, Error>
  {
    GuardChain(s, t, DeclaredRoles(r))
  }

  const PerfilMessage: string := "Bienvenido a tu cuenta"

  /** GET perfil/me: the guard's decision, then the fixed greeting. */
  function GetPerfilPropio(user: Option<User>): (r: Result<string, Error>)
    ensures r.Ok? <==> RolIs(user, "cliente")
    ensures r.Ok? ==> r.value == PerfilMessage
  {
    match Access(PerfilMe, user)
    case Ok(_) => Ok(PerfilMessage)
    case Err(e) => Err(e)
  }

  /**
   * create declares no roles: the role guard admits every request that reaches it, so any
   * request with a valid token, whatever its rol, may create a customer, and no other may.
   */
  lemma CreateOpen(user: Option<User>, s: Strategy, t: Option<Token>)
    ensures Access(Create, user) == Ok(true)
    ensures Request(Create, s, t).Ok? <==> t.Some? && t.value.key == s.secret
  {
  }

  lemma AdminOnly(r: Route, user: Option<User>)
    requires r in {FindAll, Remove}
    ensures Access(r, user).Ok? <==> RolIs(user, "admin")
  {
  }

  /** Reading and updating admit customers and administrators, and refuse employees. */
  lemma ClienteOrAdmin(r: Route, user: Option<User>)
    requires r in {FindOne, Update}
    ensures Access(r, user).Ok? <==> RolIs(user, "cliente") || RolIs(user, "admin")
    ensures RolIs(user, "empleado") ==> Access(r, user).Err?
  {
  }

  /**
   * The guards see the token only, never the `:id` of the path: a token the server signed for a
   * customer, whatever customer id it carries, passes both guards on findOne and update, so the
   * handler then serves whichever customer the path names, its own record or another's.
   */
  lemma AnyCustomerIdReachable(r: Route, s: Strategy, id: Option<int>, correo: Option<string>)
    requires r in {FindOne, Update}
    ensures Request(r, s, Some(Sign(Claims(id, correo, Some("cliente")), s.secret))) == Ok(true)
  {
  }
}
