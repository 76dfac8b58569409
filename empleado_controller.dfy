/** Route access and filter construction of the employee controller (empleado.controller.ts). */
module EmpleadoController {
  import opened Wrappers
  import opened Errors
  import opened JwtStrategy
  import opened RolesGuard
  import QueryParams
  import Empleado

  datatype Route =
    | Create | FindAll | FindOne | FindByTienda | FindByCargo
    | Update | Activate | Deactivate | Remove

  /** The @Roles metadata of each handler: every handler declares some. */
  function DeclaredRoles(r: Route): Option<seq<string>>
  {
    match r
    case Create => Some(["admin"])
    case FindAll => Some(["admin", "empleado"])
    case FindOne => Some(["admin", "empleado"])
    case FindByTienda => Some(["admin", "empleado"])
    case FindByCargo => Some(["admin", "empleado"])
    case Update => Some(["admin"])
    case Activate => Some(["admin"])
    case Deactivate => Some(["admin"])
    case Remove => Some(["admin"])
  }

  function Access(r: Route, user: Option<User>): Result<bool, Error>
  {
    CanActivate(DeclaredRoles(r), user)
  }

  /** findAll's filters: `activo` parsed to true, false or undefined, `cargo` passed through. */
  function BuildFilters(activo: Option<string>, cargo: Option<string>): (f: Empleado.Filters)
    ensures f.cargo == cargo
    ensures f.activo == Some(true) <==> activo == Some("true")
    ensures f.activo == Some(false) <==> activo == Some("false")
  {
    Empleado.Filters(QueryParams.ParseBool(activo), cargo)
  }

  /** The state that activate and deactivate pass to updateEstado; None for other routes. */
  function EstadoArgument(r: Route): (b: Option<bool>)
    ensures b.Some? <==> r == Activate || r == Deactivate
    ensures b == Some(true) <==> r == Activate
  {
    match r
    case Activate => Some(true)
    case Deactivate => Some(false)
    case _ => None
  }

  lemma WritesAdminOnly(r: Route, user: Option<User>)
    requires r in {Create, Update, Activate, Deactivate, Remove}
    ensures Access(r, user).Ok? <==> RolIs(user, "admin")
  {
  }

  lemma ReadsForStaff(r: Route, user: Option<User>)
    requires r in {FindAll, FindOne, FindByTienda, FindByCargo}
    ensures Access(r, user).Ok? <==> RolIs(user, "admin") || RolIs(user, "empleado")
  {
  }

  /** No handler lists 'cliente': a customer is refused on every route of this controller. */
  lemma ClienteRefusedEverywhere(r: Route, user: Option<User>)
    requires RolIs(user, "cliente")
    ensures Access(r, user).Err?
  {
  }
}
