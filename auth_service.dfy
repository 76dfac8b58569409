/**
 * The authentication service (auth.service.ts): customer registration, the three-stage login,
 * token generation, and the role-dispatched user lookup. The three credential services are
 * passed in as the objects the service was constructed with.
 */
module AuthService {
  import opened Wrappers
  import opened Errors
  import opened Argon2
  import opened Jwt
  import opened JwtStrategy
  import opened RolesGuard
  import Administrador
  import Cliente
  import Empleado

  const LoginMessage: string := "Inicio de sesión exitoso"
  const InvalidCredentials: string := "Credenciales inválidas"
  const DuplicateEmail: string := "El correo ya está registrado"
  const RegisteredMessage: string := "Cliente registrado correctamente"
  const InvalidToken: string := "Token inválido o usuario no encontrado"

  datatype LoginDto = LoginDto(correo: string, contrasena: string)

  datatype RegisterDto = RegisterDto(
    nombre: string,
    correo: string,
    contrasena: string,
    telefono: string,
    direccion: string)

  /** The successful answer of login. */
  datatype Session = Session(message: string, tipo: string, token: Token)

  /** The successful answer of registerCliente. */
  datatype Registered = Registered(message: string, cliente: Cliente.Cliente)

  /** What one lookup of login found: the record's id and the password field it carries. */
  datatype Candidate = Candidate(id: int, stored: Option<Secret>)

  /** A decoded token payload as validarUsuario reads it. */
  datatype Payload = Payload(id: int, rol: Option<string>)

  /** The record validarUsuario returns, spread together with its role. */
  datatype Record =
    | AdminRecord(admin: Administrador.Admin)
    | ClienteRecord(cliente: Cliente.Cliente)
    | EmpleadoRecord(empleado: Empleado.Empleado)

  datatype Identity = Identity(record: Record, rol: string)

  /** generarToken: signs exactly `{id, rol}`. */
  function GenerarToken(id: int, rol: string, key: string): (t: Token)
    ensures Decode(t, key) == Some(Claims(Some(id), None, Some(rol)))
  {
    Sign(Claims(Some(id), None, Some(rol)), key)
  }

  /**
   * One stage of login: the record exists, its stored hash is truthy, and it verifies. A truthy
   * stored value that is not a digest, where argon2.verify would throw, counts as not verifying;
   * the services' `Valid()` rules such a value out (`StoredWellFormed`).
   */
  predicate Accepts(c: Option<Candidate>, contrasena: string)
  {
    c.Some? && Truthy(c.value.stored) && Verify(c.value.stored.value, Plain(contrasena))
  }

  /** The session a stage issues when it accepts. */
  function Issue(c: Candidate, rol: string, tipo: string, key: string): Session
  {
    Session(LoginMessage, tipo, GenerarToken(c.id, rol, key))
  }

  /** login's if-chain over the three lookup results, in order admin, cliente, empleado. */
  function Decide(admin: Option<Candidate>, cliente: Option<Candidate>, empleado: Option<Candidate>,
                  contrasena: string, key: string): (r: Result<Session, Error>)
    ensures Accepts(admin, contrasena) ==> r == Ok(Issue(admin.value, "admin", "Administrador", key))
    ensures !Accepts(admin, contrasena) && Accepts(cliente, contrasena) ==>
              r == Ok(Issue(cliente.value, "cliente", "Cliente", key))
    ensures !Accepts(admin, contrasena) && !Accepts(cliente, contrasena) && Accepts(empleado, contrasena) ==>
              r == Ok(Issue(empleado.value, "empleado", "Empleado", key))
    ensures r.Err? <==> !Accepts(admin, contrasena) && !Accepts(cliente, contrasena) && !Accepts(empleado, contrasena)
    ensures r.Err? ==> r.error == Unauthorized(InvalidCredentials)
  {
    if Accepts(admin, contrasena) then Ok(Issue(admin.value, "admin", "Administrador", key))
    else if Accepts(cliente, contrasena) then Ok(Issue(cliente.value, "cliente", "Cliente", key))
    else if Accepts(empleado, contrasena) then Ok(Issue(empleado.value, "empleado", "Empleado", key))
    else Err(Unauthorized(InvalidCredentials))
  }

  function AdminCandidate(a: Option<Administrador.Admin>): Option<Candidate>
  {
    match a
    case Some(x) => Some(Candidate(x.id, x.contrasena))
    case None => None
  }

  function ClienteCandidate(c: Option<Cliente.Cliente>): Option<Candidate>
  {
    match c
    case Some(x) => Some(Candidate(x.id, x.contrasena))
    case None => None
  }

  function EmpleadoCandidate(e: Option<Empleado.Empleado>): Option<Candidate>
  {
    match e
    case Some(x) => Some(Candidate(x.id, x.contrasena))
    case None => None
  }

  /** login: each stage looks the e-mail up through that category's findByCorreo. */
  function Login(admins: Administrador.AdministradorService, clientes: Cliente.ClienteService,
                 empleados: Empleado.EmpleadoService, key: string, dto: LoginDto): Result<Session, Error>
    reads admins, clientes, empleados
  {
    Decide(AdminCandidate(admins.ByCorreo(dto.correo)),
           ClienteCandidate(clientes.ByCorreo(dto.correo)),
           EmpleadoCandidate(empleados.ByCorreo(dto.correo)),
           dto.contrasena, key)
  }

  /** A record found with an absent or empty stored hash is never accepted, whatever the password. */
  lemma FalsyHashNeverAccepted(c: Candidate, contrasena: string)
    requires !Truthy(c.stored)
    ensures !Accepts(Some(c), contrasena)
  {
  }

  /** A later stage is not consulted once an earlier one accepts. */
  lemma EarlierStageWins(admin: Option<Candidate>, cliente: Option<Candidate>, empleado: Option<Candidate>,
                         other: Option<Candidate>, contrasena: string, key: string)
    ensures Accepts(admin, contrasena) ==>
              Decide(admin, cliente, empleado, contrasena, key) == Decide(admin, other, other, contrasena, key)
    ensures !Accepts(admin, contrasena) && Accepts(cliente, contrasena) ==>
              Decide(admin, cliente, empleado, contrasena, key) == Decide(admin, cliente, other, contrasena, key)
  {
  }

  /** findByCorreo of the administrator service strips the password, so the admin stage never accepts. */
  lemma LoginAdminBranchDead(admins: Administrador.AdministradorService, correo: string, contrasena: string)
    ensures !Accepts(AdminCandidate(admins.ByCorreo(correo)), contrasena)
  {
  }

  /** The same holds for the customer stage. */
  lemma LoginClienteBranchDead(clientes: Cliente.ClienteService, correo: string, contrasena: string)
    ensures !Accepts(ClienteCandidate(clientes.ByCorreo(correo)), contrasena)
  {
  }

  /**
   * Hence login succeeds exactly when the employee stored under the e-mail has a hash that
   * verifies, and then it issues an employee session whose token carries that employee's id.
   */
  lemma LoginOnlyEmpleado(admins: Administrador.AdministradorService, clientes: Cliente.ClienteService,
                          empleados: Empleado.EmpleadoService, key: string, dto: LoginDto)
    ensures var r := Login(admins, clientes, empleados, key, dto);
            var e := empleados.ByCorreo(dto.correo);
            && (r.Ok? <==> Accepts(EmpleadoCandidate(e), dto.contrasena))
            && (r.Ok? ==> r.value.tipo == "Empleado" && r.value.message == LoginMessage
                          && Decode(r.value.token, key) == Some(Claims(Some(e.value.id), None, Some("empleado"))))
            && (r.Err? ==> r.error == Unauthorized(InvalidCredentials))
  {
    LoginAdminBranchDead(admins, dto.correo, dto.contrasena);
    LoginClienteBranchDead(clientes, dto.correo, dto.contrasena);
  }

  /**
   * The token of a successful login passes the JWT guard of a strategy holding the same key,
   * yields the employee's id and role, and is admitted by a handler that lists 'empleado'.
   */
  lemma LoginTokenAuthorizes(admins: Administrador.AdministradorService, clientes: Cliente.ClienteService,
                             empleados: Empleado.EmpleadoService, s: Strategy, dto: LoginDto, roles: seq<string>)
    requires Login(admins, clientes, empleados, s.secret, dto).Ok?
    ensures var t := Login(admins, clientes, empleados, s.secret, dto).value.token;
            var u := Authenticate(s, t);
            && u == Some(User(Some(empleados.ByCorreo(dto.correo).value.id), None, Some("empleado")))
            && (CanActivate(Some(roles), u).Ok? <==> "empleado" in roles)
  {
    LoginOnlyEmpleado(admins, clientes, empleados, s.secret, dto);
    AllowedIffListed(roles, Authenticate(s, Login(admins, clientes, empleados, s.secret, dto).value.token));
  }

  /** validate applied to a token made by generarToken gives back its id and rol, without correo. */
  lemma TokenRoundTrip(id: int, rol: string, key: string)
    ensures Decode(GenerarToken(id, rol, key), key).Some?
    ensures Validate(Decode(GenerarToken(id, rol, key), key).value) == User(Some(id), None, Some(rol))
  {
  }

  /** The catch block of registerCliente: a duplicate key becomes BadRequest, anything else is rethrown. */
  function TranslateError(e: Error): (r: Error)
    ensures e == QueryFailed(UniqueViolation) ==> r == BadRequest(DuplicateEmail)
    ensures e != QueryFailed(UniqueViolation) ==> r == e
  {
    if e == QueryFailed(UniqueViolation) then BadRequest(DuplicateEmail) else e
  }

  /** The argument registerCliente hands to ClienteService.create: the password already hashed. */
  function RegisterCreateDto(dto: RegisterDto): (c: Cliente.CreateDto)
    ensures c.nombre == dto.nombre && c.correo == dto.correo
    ensures c.telefono == dto.telefono && c.direccion == dto.direccion
    ensures c.contrasena == Some(Hash(Plain(dto.contrasena))) && c.activo.None?
  {
    Cliente.CreateDto(dto.nombre, dto.correo, dto.telefono, dto.direccion, Some(Hash(Plain(dto.contrasena))), None)
  }

  /**
   * registerCliente. The customer service hashes the already hashed password again, so the row
   * stores hash(hash(contrasena)), which does not verify against the password itself.
   */
  method RegisterCliente(clientes: Cliente.ClienteService, dto: RegisterDto) returns (r: Result<Registered, Error>)
    requires clientes.Valid()
    modifies clientes
    ensures clientes.Valid()
    ensures old(clientes.Clash(clientes.nextId, dto.correo)) ==>
              r == Err(BadRequest(DuplicateEmail)) && clientes.rows == old(clientes.rows)
                && clientes.nextId == old(clientes.nextId) + 1
    ensures !old(clientes.Clash(clientes.nextId, dto.correo)) ==>
              var stored := Hash(Hash(Plain(dto.contrasena)));
              var c := Cliente.Cliente(old(clientes.nextId), dto.nombre, dto.correo, Some(stored),
                                       dto.telefono, dto.direccion, true);
              && clientes.rows == old(clientes.rows)[c.id := c]
              && clientes.nextId == old(clientes.nextId) + 1
              && r == Ok(Registered(RegisteredMessage, Cliente.Sanitize(c)))
              && !Verify(stored, Plain(dto.contrasena))
  {
    var created := clientes.Create(RegisterCreateDto(dto));
    match created
    case Ok(c) =>
      r := Ok(Registered(RegisteredMessage, c.(contrasena := None)));
    case Err(e) =>
      r := Err(TranslateError(e));
    DoubleHashRejectsPassword(Plain(dto.contrasena));
  }

  /**
   * validarUsuario: exactly the lookup named by the payload's rol, the record without its
   * password and tagged with that rol. A missing record surfaces the service's NotFound;
   * an unrecognised rol is Unauthorized.
   */
  function ValidarUsuario(admins: Administrador.AdministradorService, clientes: Cliente.ClienteService,
                          empleados: Empleado.EmpleadoService, p: Payload): (r: Result<Identity, Error>)
    reads admins, clientes, empleados
    ensures p.rol == Some("admin") ==>
              if p.id in admins.rows
              then r == Ok(Identity(AdminRecord(Administrador.Sanitize(admins.rows[p.id])), "admin"))
              else r == Err(Administrador.NotFoundError(p.id))
    ensures p.rol == Some("cliente") ==>
              if p.id in clientes.rows
              then r == Ok(Identity(ClienteRecord(Cliente.Sanitize(clientes.rows[p.id])), "cliente"))
              else r == Err(Cliente.NotFoundError(p.id))
    ensures p.rol == Some("empleado") ==>
              if p.id in empleados.rows
              then r == Ok(Identity(EmpleadoRecord(empleados.rows[p.id].(contrasena := None)), "empleado"))
              else r == Err(Empleado.NotFoundError(p.id))
    ensures p.rol !in {Some("admin"), Some("cliente"), Some("empleado")} ==> r == Err(Unauthorized(InvalidToken))
    ensures r.Ok? ==> Some(r.value.rol) == p.rol && HasNoPassword(r.value.record)
  {
    if p.rol == Some("admin") then
      if p.id in admins.rows then Ok(Identity(AdminRecord(Administrador.Sanitize(admins.rows[p.id])), "admin"))
      else Err(Administrador.NotFoundError(p.id))
    else if p.rol == Some("cliente") then
      if p.id in clientes.rows then Ok(Identity(ClienteRecord(Cliente.Sanitize(clientes.rows[p.id])), "cliente"))
      else Err(Cliente.NotFoundError(p.id))
    else if p.rol == Some("empleado") then
      if p.id in empleados.rows then Ok(Identity(EmpleadoRecord(empleados.rows[p.id].(contrasena := None)), "empleado"))
      else Err(Empleado.NotFoundError(p.id))
    else Err(Unauthorized(InvalidToken))
  }

  predicate HasNoPassword(r: Record)
  {
    match r
    case AdminRecord(a) => a.contrasena.None?
    case ClienteRecord(c) => c.contrasena.None?
    case EmpleadoRecord(e) => e.contrasena.None?
  }
}
