# Store back end and volunteer-hours tracker, modelled in Dafny

This project models two programs.

The first is the core of a NestJS store back end (`Taller_3`). It covers:

- customer registration and the three-stage login of `AuthService`, token generation, and the
  role-dispatched `validarUsuario`;
- the passport JWT strategy and the role guard that decides every request;
- the credential services for administrators, customers and employees, over in-memory tables;
- the administrator entity's password hook;
- the role tables and query parsing of the store, employee and customer controllers;
- sales and invoice details, where every detail write recomputes a sale's total.

The second is the console hours tracker of `Taller_1/script.js`: registering and querying
social-service hours against a cap of 80, inside a menu loop.

Hashing is abstract. A stored secret is either plain text or the digest of another secret, so
`Hash` is injective and hashing twice can be seen in the value. `Verify(stored, p)` holds exactly
when `stored` is the digest of `p`. A JWT carries its claims and the key that signed it. Decoding
with the same key gives the claims back; any other key is rejected. Database tables are `map`s from
primary key to row, plus the next key the database will generate. An insert draws its key
before the unique columns are checked, so an insert that fails with a clash still uses up a key. A lookup by column returns the
lowest matching key. Unique columns are table invariants. A write that would break one returns
the PostgreSQL code `23505`. Money is in integer cents.

Each service is a `class` whose table fields its methods update. Every such method is specified
by its whole new state: the new value of every field its `modifies` clause lets it change,
including the fields of another service it updates. Each stateless part (the guard, the strategy, the controllers' role
tables, the login decision, the tracker's step) is a function, with lemmas stating what the source
promises.

Consequences of the code as written, proved as lemmas:

- `findByCorreo` of the administrator and customer services strips the password. So the
  administrator and customer stages of `login` can never accept, and every successful login is an
  employee login (`AuthService.LoginOnlyEmpleado`).
- `registerCliente` hashes the password, and `ClienteService.create` hashes it again. The stored
  value does not verify against the password (`AuthService.RegisterCliente`).
- The administrator entity hook hashes whenever an entity instance is saved, after the service
  has hashed already. A created administrator stores a double hash (`Administrador.SavedPassword`).
  `update` saves the plain object `findOne` returned, so no hook runs and an updated password is
  hashed once (`Administrador.Merged`).
- When a detail update moves a detail to another sale, the previous sale keeps a stale total
  (`DetalleFactura.MovedDetailLeavesStaleTotal`).

## Model

| member | source | states |
|---|---|---|
| Argon2.Hash | Taller_3/src/cliente/cliente.service.ts:33-35 | a hash is a digest and verifies against its own input |
| Argon2.VerifyExactlyPreimage | Taller_3/src/administrador/administrador.service.ts:115-119 | a digest verifies against its preimage and against nothing else |
| Argon2.HashIfTruthy | Taller_3/src/cliente/cliente.service.ts:33-35 | a truthy password is stored as a digest that verifies against it; a falsy one is stored as given; the result is never a truthy plain value |
| Argon2.DoubleHashRejectsPassword | Taller_3/src/auth/auth.service.ts:40-45 | a twice-hashed password does not verify against the password, only against its first hash |
| Jwt.Decode | Taller_3/src/auth/strategies/jwt.strategy.ts:19-23 | a token decodes exactly when checked with the key that signed it |
| Jwt.DecodeSign | Taller_3/src/auth/strategies/jwt.strategy.ts:19-23 | decoding a signed token with its key returns its claims; any other key is rejected |
| Table.FirstWhere | Taller_3/src/cliente/cliente.service.ts:48 | the result is the least key in range whose row matches; no smaller key matches; None means no key in range matches |
| Table.FirstWhereUnique | Taller_3/src/administrador/administrador.service.ts:49-52 | under a unique column, the lookup finds the one matching row whenever it exists |
| Table.KeysDescending | Taller_3/src/venta/venta.service.ts:67-72 | every key in range appears, only keys in range appear, in strictly decreasing order |
| Administrador.Sanitize | Taller_3/src/administrador/administrador.service.ts:128-131 | the returned record has no password field |
| Administrador.SavedPassword | Taller_3/src/administrador/administrador.service.ts:32-40 | a truthy password is stored as a digest that verifies against its first hash and not against the password; a falsy one is stored as given |
| Administrador.Merged | Taller_3/src/administrador/administrador.service.ts:85-95 | dto fields replace stored ones; absent fields, including an absent password, keep their values; a supplied truthy password is hashed once, by the service only, and verifies against itself |
| Administrador.PutKeepsValid | Taller_3/src/administrador/entities/administrador.entity.ts:23-31 | writing a row whose correo and usuario no other row holds keeps both columns unique and passwords well-formed |
| Administrador.AdministradorEntity.HashPassword | Taller_3/src/administrador/entities/administrador.entity.ts:41-47 | a truthy password is replaced by its hash; an empty or absent one is untouched |
| Administrador.AdministradorEntity.ValidarContrasena | Taller_3/src/administrador/entities/administrador.entity.ts:55-57 | fails exactly when the stored value is unset or is not an encoded hash, as argon2.verify throws; otherwise true exactly when the stored value is the hash of the plain password |
| Administrador.AdministradorService.Create | Taller_3/src/administrador/administrador.service.ts:32-41 | a duplicate correo or usuario fails with 23505, stores nothing and uses up the next id; otherwise the row gets the next id and the doubly hashed password, and the result has no password |
| Administrador.AdministradorService.FindByCorreo | Taller_3/src/administrador/administrador.service.ts:49-52 | the stored row with that correo, without its password; None exactly when no row has that correo |
| Administrador.AdministradorService.FindAll | Taller_3/src/administrador/administrador.service.ts:59-62 | exactly the stored rows, each without its password |
| Administrador.AdministradorService.FindOne | Taller_3/src/administrador/administrador.service.ts:71-75 | the row without its password, or NotFound naming the id |
| Administrador.AdministradorService.Update | Taller_3/src/administrador/administrador.service.ts:85-95 | an unknown id is NotFound and changes nothing; a clash is 23505 and changes nothing; otherwise exactly the merged row is written and returned without its password |
| Administrador.AdministradorService.Remove | Taller_3/src/administrador/administrador.service.ts:103-106 | removes exactly that row, or is NotFound and changes nothing |
| Administrador.AdministradorService.VerificarContrasena | Taller_3/src/administrador/administrador.service.ts:115-119 | false for a missing row or a falsy stored password; otherwise true exactly when the stored hash verifies |
| Cliente.Sanitize | Taller_3/src/cliente/cliente.service.ts:129-132 | the returned record has no password field |
| Cliente.Merged | Taller_3/src/cliente/cliente.service.ts:88-98 | dto fields replace stored ones, absent fields keep their values, a supplied password is hashed |
| Cliente.PutKeepsValid | Taller_3/src/cliente/entities/cliente.entity.ts:23 | writing a row whose correo no other row holds keeps the column unique and passwords well-formed |
| Cliente.ClienteService.Create | Taller_3/src/cliente/cliente.service.ts:30-39 | a duplicate correo fails with 23505, stores nothing and uses up the next id; otherwise the row is stored with a hashed password, active by default, and returned without it |
| Cliente.ClienteService.FindByCorreo | Taller_3/src/cliente/cliente.service.ts:47-50 | the stored row with that correo, without its password; None exactly when no row has that correo |
| Cliente.ClienteService.FindAll | Taller_3/src/cliente/cliente.service.ts:57-62 | exactly the stored rows, each without its password |
| Cliente.ClienteService.FindOne | Taller_3/src/cliente/cliente.service.ts:71-79 | the row without its password, or NotFound naming the id |
| Cliente.ClienteService.Update | Taller_3/src/cliente/cliente.service.ts:88-98 | an unknown id is NotFound and changes nothing; a clash is 23505; otherwise exactly the merged row is written and returned without its password |
| Cliente.ClienteService.Remove | Taller_3/src/cliente/cliente.service.ts:105-108 | removes exactly that row, or is NotFound and changes nothing |
| Cliente.ClienteService.VerificarContrasena | Taller_3/src/cliente/cliente.service.ts:117-121 | false for a missing row or a falsy stored password; otherwise true exactly when the stored hash verifies |
| Empleado.Created | Taller_3/src/empleado/empleado.service.ts:32-44 | a truthy password is hashed, otherwise null is stored; the store is linked only for a truthy tienda_id; active by default |
| Empleado.Merged | Taller_3/src/empleado/empleado.service.ts:94-109 | dto fields replace stored ones, a truthy password is hashed, the store link changes only for a truthy tienda_id, other fields keep their values |
| Empleado.PutKeepsValid | Taller_3/src/empleado/entities/empleado.entity.ts:30 | writing a row whose email no other row holds keeps the column unique |
| Empleado.ExactCargoMatchesFilter | Taller_3/src/empleado/empleado.service.ts:55-56 | a row found by the exact cargo is also found by findAll's substring filter |
| Empleado.SubstringCargoIsNotExact | Taller_3/src/empleado/empleado.service.ts:86-91 | the substring filter admits a cargo that the exact match of findByCargo rejects |
| Empleado.EmpleadoService.Create | Taller_3/src/empleado/empleado.service.ts:32-44 | a duplicate email fails with 23505, stores nothing and uses up the next id; otherwise the created row is stored and returned as saved, password included |
| Empleado.EmpleadoService.FindAll | Taller_3/src/empleado/empleado.service.ts:47-59 | exactly the rows matching the activo filter when defined and the cargo substring when non-empty |
| Empleado.EmpleadoService.FindByCorreo | Taller_3/src/empleado/empleado.service.ts:62-64 | the stored row with that email, not sanitised; None exactly when no row has that email |
| Empleado.EmpleadoService.FindOne | Taller_3/src/empleado/empleado.service.ts:67-75 | the stored row, or NotFound naming the id |
| Empleado.EmpleadoService.FindByTienda | Taller_3/src/empleado/empleado.service.ts:78-83 | exactly the rows linked to that store |
| Empleado.EmpleadoService.FindByCargo | Taller_3/src/empleado/empleado.service.ts:86-91 | exactly the rows whose cargo equals the argument |
| Empleado.EmpleadoService.Update | Taller_3/src/empleado/empleado.service.ts:94-109 | an unknown id is NotFound and changes nothing; a clash is 23505; otherwise exactly the merged row is written |
| Empleado.EmpleadoService.UpdateEstado | Taller_3/src/empleado/empleado.service.ts:112-117 | sets activo of that row and changes no other field or row; NotFound for an unknown id |
| Empleado.EmpleadoService.Remove | Taller_3/src/empleado/empleado.service.ts:120-123 | removes exactly that row, or is NotFound and changes nothing |
| JwtStrategy.New | Taller_3/src/auth/strategies/jwt.strategy.ts:15-24 | construction fails with the configuration error exactly when JWT_SECRET is undefined or empty; otherwise the strategy holds that secret |
| JwtStrategy.Validate | Taller_3/src/auth/strategies/jwt.strategy.ts:31-33 | the user's id, correo and rol are the payload's, and nothing else is consulted |
| JwtStrategy.Authenticate | Taller_3/src/auth/strategies/jwt.strategy.ts:19-33 | a user is attached exactly when the token was signed with the strategy's secret, and it is validate of the token's claims |
| RolesGuard.CanActivate | Taller_3/src/auth/guards/roles.guard.ts:18-36 | never false; no roles metadata admits anyone; a missing user or falsy rol is Forbidden with the fixed message; otherwise admitted exactly when the rol is listed, and Forbidden naming the roles when not |
| RolesGuard.AllowedIffListed | Taller_3/src/auth/guards/roles.guard.ts:31-35 | with roles declared, admission holds exactly when the user's rol equals one of the non-empty listed roles |
| RolesGuard.EmptyRolesDenyAll | Taller_3/src/auth/guards/roles.guard.ts:21-33 | a declared empty list denies every request |
| RolesGuard.DenialNamesRoles | Taller_3/src/auth/guards/roles.guard.ts:31-33 | the denial message contains every declared role |
| RolesGuard.GuardChain | Taller_3/src/auth/guards/jwt-auth.guard.ts:16-17 | a request without a token or with one signed under another key is Unauthorized before any role check; a request that passes carries a valid token and gets the role guard's decision on the user validate builds |
| RolesGuard.ChainAdmitsIff | Taller_3/src/auth/guards/roles.guard.ts:18-36 | through both guards, a route with roles declared admits exactly the validly signed tokens whose rol claim is one of the listed non-empty roles |
| RolesGuard.DecisionIgnoresIdentity | Taller_3/src/auth/guards/roles.guard.ts:23-35 | two users with the same rol get the same decision, whatever their id and correo |
| QueryParams.ParseBool | Taller_3/src/tienda/tienda.controller.ts:54-55 | 'true' gives true, 'false' gives false, anything else gives undefined, in both directions |
| QueryParams.OtherSpellingsIgnored | Taller_3/src/empleado/empleado.controller.ts:48-51 | absent, 'TRUE', '1', '' and 'False' all give undefined |
| TiendaController.ActivaFilter | Taller_3/src/tienda/tienda.controller.ts:53-56 | the activa filter is true or false exactly for the strings 'true' and 'false' |
| TiendaController.EstadoArgument | Taller_3/src/tienda/tienda.controller.ts:102-117 | activar passes true, desactivar passes false, and no other route calls updateEstado |
| TiendaController.WritesAdminOnly | Taller_3/src/tienda/tienda.controller.ts:40-128 | create, update, activar, desactivar and delete admit exactly the admin role |
| TiendaController.EmpleadosForStaff | Taller_3/src/tienda/tienda.controller.ts:77-80 | the employee listing admits exactly admin and empleado and denies cliente |
| TiendaController.ReadsOpen | Taller_3/src/tienda/tienda.controller.ts:30-67 | findAll and findOne declare no roles, so the role guard admits every request that reaches it; behind the class-level JWT guard they admit exactly the requests with a validly signed token |
| EmpleadoController.BuildFilters | Taller_3/src/empleado/empleado.controller.ts:44-53 | activo is parsed tri-state, cargo is passed through unchanged |
| EmpleadoController.EstadoArgument | Taller_3/src/empleado/empleado.controller.ts:88-98 | activar passes true, desactivar passes false, and no other route calls updateEstado |
| EmpleadoController.WritesAdminOnly | Taller_3/src/empleado/empleado.controller.ts:35-105 | create, update, activar, desactivar and delete admit exactly the admin role |
| EmpleadoController.ReadsForStaff | Taller_3/src/empleado/empleado.controller.ts:42-74 | every read route admits exactly admin and empleado |
| EmpleadoController.ClienteRefusedEverywhere | Taller_3/src/empleado/empleado.controller.ts:26-106 | a cliente identity is denied on every route of the controller |
| ClienteController.GetPerfilPropio | Taller_3/src/cliente/cliente.controller.ts:102-106 | succeeds exactly for the cliente role, with the fixed greeting |
| ClienteController.CreateOpen | Taller_3/src/cliente/cliente.controller.ts:26-40 | create declares no roles, so the role guard admits every request that reaches it; behind the class-level JWT guard it admits exactly the requests with a validly signed token, whatever their rol |
| ClienteController.AdminOnly | Taller_3/src/cliente/cliente.controller.ts:49-92 | findAll and remove admit exactly the admin role |
| ClienteController.ClienteOrAdmin | Taller_3/src/cliente/cliente.controller.ts:61-80 | findOne and update admit exactly cliente and admin, and deny empleado |
| ClienteController.AnyCustomerIdReachable | Taller_3/src/cliente/cliente.controller.ts:27-81 | a token signed by the server with rol cliente passes both guards on findOne and update whatever customer id it carries; the guards never compare it with the path id |
| AuthService.GenerarToken | Taller_3/src/auth/auth.service.ts:104-106 | the token decodes to exactly {id, rol}, with no correo |
| AuthService.Decide | Taller_3/src/auth/auth.service.ts:71-96 | the first stage of admin, cliente, empleado whose record verifies issues the session with that stage's rol, tipo and id; otherwise Unauthorized 'Credenciales inválidas' |
| AuthService.FalsyHashNeverAccepted | Taller_3/src/auth/auth.service.ts:76-90 | a record whose stored hash is absent or empty is never accepted |
| AuthService.EarlierStageWins | Taller_3/src/auth/auth.service.ts:74-93 | once a stage accepts, the later lookups do not affect the result |
| AuthService.LoginAdminBranchDead | Taller_3/src/auth/auth.service.ts:74-79 | the administrator stage never accepts, because findByCorreo strips the password |
| AuthService.LoginClienteBranchDead | Taller_3/src/auth/auth.service.ts:81-86 | the customer stage never accepts, for the same reason |
| AuthService.LoginOnlyEmpleado | Taller_3/src/auth/auth.service.ts:71-96 | login succeeds exactly when the employee with that e-mail has a verifying hash, and then issues an Empleado session whose token carries that employee's id and rol |
| AuthService.LoginTokenAuthorizes | Taller_3/src/auth/auth.service.ts:88-93 | the token of a successful login passes the JWT guard under the same key and is admitted exactly by handlers listing 'empleado' |
| AuthService.TokenRoundTrip | Taller_3/src/auth/auth.service.ts:104-106 | validate of a decoded generarToken payload gives back its id and rol, with correo undefined |
| AuthService.TranslateError | Taller_3/src/auth/auth.service.ts:56-61 | code 23505 becomes BadRequest 'El correo ya está registrado'; every other error is rethrown unchanged |
| AuthService.RegisterCreateDto | Taller_3/src/auth/auth.service.ts:40-48 | nombre, correo, telefono and direccion pass through, and the password is passed already hashed |
| AuthService.RegisterCliente | Taller_3/src/auth/auth.service.ts:38-62 | a duplicate correo is BadRequest, stores nothing and uses up the next customer id; otherwise the customer is stored under the next id with hash(hash(password)), which does not verify against the password, the next id advances by one, and the customer is returned without it |
| AuthService.ValidarUsuario | Taller_3/src/auth/auth.service.ts:115-141 | looks up only the table named by rol, returns that row without its password and tagged with the same rol; a missing row surfaces that service's NotFound; any other rol is Unauthorized |
| Detalles.TotalNone | Taller_3/src/venta/venta.service.ts:87-88 | a sale with no details sums to 0 |
| Detalles.TotalPut | Taller_3/src/detalle-factura/detalle-factura.service.ts:91-92 | overwriting one detail changes each sale's sum by that detail's new contribution less its old one |
| Detalles.TotalRemove | Taller_3/src/detalle-factura/detalle-factura.service.ts:106 | deleting one detail takes its contribution away from its sale's sum |
| Detalles.TotalAppend | Taller_3/src/detalle-factura/detalle-factura.service.ts:48 | a new detail adds its subtotal to its own sale's sum and leaves every other sale's sum alone |
| Venta.Merged | Taller_3/src/venta/venta.service.ts:93-97 | dto fields replace stored ones, absent ones stay, the total is untouched |
| Venta.Recalculated | Taller_3/src/venta/venta.service.ts:85-90 | the sale's total becomes the sum of its details' subtotals; no other field and no other sale changes; an unknown id changes nothing |
| Venta.RecalculatedIdempotent | Taller_3/src/venta/venta.service.ts:85-90 | recomputing twice with no detail change in between equals recomputing once |
| Venta.RecalculatedRestores | Taller_3/src/venta/venta.service.ts:85-90 | if only that sale's total was off, recomputing it makes every total match its details |
| Venta.VentaService.Create | Taller_3/src/venta/venta.service.ts:44-64 | cliente, empleado and tienda are checked in that order with their NotFound messages, and nothing is saved on failure; a new sale has total 0 and is active by default |
| Venta.VentaService.FindAll | Taller_3/src/venta/venta.service.ts:67-72 | every stored sale, ordered by id descending |
| Venta.VentaService.FindOne | Taller_3/src/venta/venta.service.ts:75-82 | the stored sale, or NotFound naming the id |
| Venta.VentaService.RecalcularTotal | Taller_3/src/venta/venta.service.ts:85-90 | the new table is Recalculated of the old one; an unknown id is NotFound and changes nothing |
| Venta.VentaService.Update | Taller_3/src/venta/venta.service.ts:93-97 | writes exactly the merged sale, or is NotFound and changes nothing; totals that matched still match |
| Venta.VentaService.Remove | Taller_3/src/venta/venta.service.ts:100-103 | removes exactly that sale, or is NotFound and changes nothing |
| DetalleFactura.Created | Taller_3/src/detalle-factura/detalle-factura.service.ts:40-46 | the detail copies the dto and its subtotal is quantity times unit price |
| DetalleFactura.Merged | Taller_3/src/detalle-factura/detalle-factura.service.ts:87-91 | dto fields replace stored ones, and the subtotal is recomputed from the merged quantity and price |
| DetalleFactura.DetalleFacturaService.Create | Taller_3/src/detalle-factura/detalle-factura.service.ts:36-53 | an unknown product is NotFound and changes nothing; otherwise the detail is saved, then its sale's total is recomputed, so a detail naming an unknown sale stays saved while the sale is reported missing; the sale service's customer, employee and store ids are untouched; totals that matched still match |
| DetalleFactura.DetalleFacturaService.FindOne | Taller_3/src/detalle-factura/detalle-factura.service.ts:71-78 | the stored detail, or NotFound naming the id |
| DetalleFactura.DetalleFacturaService.Update | Taller_3/src/detalle-factura/detalle-factura.service.ts:87-97 | an unknown id is NotFound and changes nothing; otherwise the merged detail is saved and only the total of the sale it now names is recomputed; the sale service's customer, employee and store ids are untouched; totals stay matched when the sale is unchanged, and otherwise every sale but the previous one matches |
| DetalleFactura.DetalleFacturaService.Remove | Taller_3/src/detalle-factura/detalle-factura.service.ts:104-108 | an unknown id is NotFound and changes nothing; otherwise the detail is deleted and its sale's total recomputed; the sale service's customer, employee and store ids are untouched; totals that matched still match |
| DetalleFactura.MovedDetailLeavesStaleTotal | Taller_3/src/detalle-factura/detalle-factura.service.ts:89-94 | after moving a detail of 1000 cents from sale 1 to sale 2, sale 1 still shows 1000 while its details sum to 0 |
| ServicioSocial.RegistroBounded | Taller_1/script.js:31-49 | registrarHoras keeps the hours within 0 and 80 |
| ServicioSocial.RegistroCompleteUnchanged | Taller_1/script.js:13-16 | with 80 hours or more, registrarHoras changes nothing |
| ServicioSocial.RegistroInvalidHours | Taller_1/script.js:18-28 | NaN or non-positive hours leave the hours unchanged |
| ServicioSocial.RegistroClamp | Taller_1/script.js:31-37 | valid hours h give min(old + h, 80) |
| ServicioSocial.NombreOnlyWhenEmpty | Taller_1/script.js:18-20 | the name is set from the prompt only while it is empty |
| ServicioSocial.StepOptions | Taller_1/script.js:84-98 | option 3 clears continuar; any option but 1 and 3 changes nothing |
| ServicioSocial.RunBounded | Taller_1/script.js:81-99 | over any run of the loop the hours stay within 0 and 80 |
| ServicioSocial.RunMonotone | Taller_1/script.js:9-50 | over any run of the loop the hours never decrease |
| ServicioSocial.RunStopsOnlyAtSalir | Taller_1/script.js:81-99 | without option 3 in the input, the loop is still running at its end |
| ServicioSocial.Tracker.RegistrarHoras | Taller_1/script.js:9-50 | the new globals follow AfterRegistro; the outcome says whether the hours were complete, invalid, or recorded with the hours added and the excess discarded |
| ServicioSocial.Tracker.ConsultarHoras | Taller_1/script.js:53-67 | no state changes; no records exactly while the name is empty, otherwise the hours and faltan = 80 - hours |
| ServicioSocial.Tracker.Paso | Taller_1/script.js:84-98 | one pass of the switch follows Step; the outcome is a registration exactly for option 1, a report exactly for option 2, exit exactly for option 3 and invalid otherwise; a registration reports complete, invalid hours, or the hours recorded and the excess, and a report gives no records exactly while the name is empty, else the name, hours, remaining hours and completion before the pass |
| ServicioSocial.Tracker.Ejecutar | Taller_1/script.js:81-99 | the globals after the loop are Run of the globals before it; the hours stay bounded and never decrease; the loop ends early only after an exit |

## Left out

- Argon2 and JWT are abstract. There are no salts, no random output, no expiry (`ignoreExpiration`, `exp`, `iat`) and no bearer-header extraction. The JWT guard is modelled as a signature check followed by `validate`.
- TypeORM mechanics are not modelled: `select: false` loading, relation loading, cascades, `onDelete`, foreign keys, `NOT NULL` columns, and conflicts between a relation and its id column. With `select: false`, even the employee stage of login and `verificarContrasena` would load no hash. Without foreign keys, a detail may name a sale that does not exist, and deleting a sale leaves its details in place.
- `Venta.VentaService.Update`: a changed `cli_id`, `emp_id` or `tienda_id` is written as a column value. Whether TypeORM keeps the eagerly loaded relation instead is not modelled.
- `Empleado.EmpleadoService.Update`: the dto's `emp_id` (Taller_3/src/empleado/dtos/update-empleado.dto.ts:14-17), which `Object.assign` copies onto the loaded row and which makes `save` write to that other primary key, is not modelled. The model always writes the row with the requested id.
- `Empleado.Merged`: has no `emp_id` field, for the same reason; the merged row keeps the stored id.
- `Empleado.EmpleadoService.Create`: a null password is stored, although the column is not nullable. The database would reject such a row.
- `AuthService.ValidarUsuario`: the payload id is taken as a number. An undefined id, which TypeORM turns into an unconstrained lookup, is not modelled. The specification describes a missing user as an authorization error. The code lets `findOne`'s NotFound propagate, and the model follows the code.
- `Empleado.EmpleadoService.FindAll`: `LIKE` wildcards inside the cargo fragment (`%`, `_`) are treated as plain characters.
- `Administrador.AdministradorService.FindAll` and `Cliente.ClienteService.FindAll` return sets, because the source sets no order.
- The creation and update dates of sales and details come from the clock and are left out.
- Decimal columns are modelled as integer cents. Rounding to two decimals and the `Number` conversion of `det_subtotal` are not modelled.
- DTO validation (`class-validator` decorators) runs before the services and is not modelled. The services accept any values.
- `detalle-factura` `findAll` is a plain listing and is not modelled.
- `ServicioSocial.Tracker.Ejecutar` runs over a finite sequence of answers. The script loops until option 3. `parseInt`'s text parsing is not modelled: parameters carry its result, with None for NaN. JavaScript number precision is not modelled.
- Console output is returned as outcome values; the message texts of the tracker are not modelled.
