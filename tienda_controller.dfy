/** Route access and query parsing of the store controller (tienda.controller.ts). */
module TiendaController {
  import opened Wrappers
  import opened Errors
  import opened Jwt
  import opened JwtStrategy
  import opened RolesGuard
  import QueryParams

  /** The handlers of the controller, all behind the JWT guard and the role guard. */
  datatype Route = Create | FindAll | FindOne | FindEmpleados | Update | Activate | Deactivate | Remove

  /** The @Roles metadata of each handler; None where the handler declares none. */
  function DeclaredRoles(r: Route): Option<seq<string>>
  {
    match r
    case Create => Some(["admin"])
    case FindAll => None
    case FindOne => None
    case FindEmpleados => Some(["admin", "empleado"])
    case Update => Some(["admin"])
    case Activate => Some(["admin"])
    case Deactivate => Some(["admin"])
    case Remove => Some(["admin"])
  }

  /** The role guard's decision for a request to route r. */
  function Access(r: Route, user: Option<User>): Result<bool, Error>
  {
    CanActivate(DeclaredRoles(r), user)
  }

  /** A request to route r through the class-level JWT guard and then the role guard. */
  function Request(r: Route, s: Strategy, t: Option<Token>): Result<bool, Error>
  {
    GuardChain(s, t, DeclaredRoles(r))
  }

  /** findAll's filter: the `activa` query parsed to true, false or undefined. */
  function ActivaFilter(activa: Option<string>): (f: Option<bool>)
    ensures f == Some(true) <==> activa == Some("true")
    ensures f == Some(false) <==> activa == Some("false")
  {
    QueryParams.ParseBool(activa)
  }

  /** The state that activate and deactivate pass to updateEstado; None for other routes. */
  function EstadoArgument(r: Route): (b: Option<bool>)
    ensures b.Some? <==> r == Activate || r == Deactivate
    ensures b == Some(true) <==> r == Activate
  {
    match r
    case Activate => Some(true)
    case Deactivate => Some(false)
    case _ => None
  }

  /** create, update, activate, deactivate and remove admit only administrators. */
  lemma WritesAdminOnly(r: Route, user: Option<User>)
    requires r in {Create, Update, Activate, Deactivate, Remove}
    ensures Access(r, user).Ok? <==> RolIs(user, "admin")
  {
  }

  /** The employee listing admits administrators and employees and refuses customers. */
  lemma EmpleadosForStaff(user: Option<User>)
    ensures Access(FindEmpleados, user).Ok? <==> RolIs(user, "admin") || RolIs(user, "empleado")
    ensures RolIs(user, "cliente") ==> Access(FindEmpleados, user).Err?
  {
  }

  /**
   * findAll and findOne declare no roles: the role guard admits every request that reaches it,
   * so through the controller's guards they admit exactly the requests with a valid token.
   */
  lemma ReadsOpen(user: Option<User>, s: Strategy, t: Option<Token>)
    ensures Access(FindAll, user) == Ok(true) && Access(FindOne, user) == Ok(true)
    ensures Request(FindAll, s, t).Ok? <==> t.Some? && t.value.key == s.secret
    ensures Request(FindOne, s, t).Ok? <==> t.Some? && t.value.key == s.secret
  {
  }
}
