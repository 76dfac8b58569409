/** Employees: the service that keeps the `empleados` table (empleado.service.ts). */
module Empleado {
  import opened Wrappers
  import opened Errors
  import opened Argon2
  import Table
  import opened Text

  /** A row of `empleados`; `tiendaId` is the linked store, None when unlinked. */
  datatype Empleado = Empleado(
    id: int,
    nombre: string,
    email: string,
    contrasena: Option<Secret>,
    cargo: string,
    activo: bool,
    tiendaId: Option<int>)

  datatype CreateDto = CreateDto(
    nombre: string,
    email: string,
    contrasena: Option<Secret>,
    cargo: string,
    activo: Option<bool>,
    tiendaId: Option<int>)

  /** Every field optional, as a partial update. */
  datatype UpdateDto = UpdateDto(
    nombre: Option<string>,
    email: Option<string>,
    contrasena: Option<Secret>,
    cargo: Option<string>,
    activo: Option<bool>,
    tiendaId: Option<int>)

  /** The optional filters of findAll: `activo` and a `cargo` fragment. */
  datatype Filters = Filters(activo: Option<bool>, cargo: Option<string>)

  function NotFoundError(id: int): Error
  {
    NotFound("Empleado con ID " + IntToString(id) + " no encontrado")
  }

  /** JavaScript truthiness of an optional number: absent and 0 are falsy. */
  predicate TruthyId(t: Option<int>)
  {
    t.Some? && t.value != 0
  }

  /** The conditions findAll adds: `activo` when defined, the `cargo` fragment when non-empty. */
  predicate Matches(e: Empleado, f: Filters)
  {
    && (f.activo.Some? ==> e.activo == f.activo.value)
    && (f.cargo.Some? && f.cargo.value != "" ==> Contains(e.cargo, f.cargo.value))  // LIKE '%cargo%'
  }

  /** The row create writes: a truthy password is hashed, otherwise null is stored. */
  function Created(id: int, dto: CreateDto): (e: Empleado)
    ensures e.id == id && e.email == dto.email && e.nombre == dto.nombre && e.cargo == dto.cargo
    ensures Truthy(dto.contrasena) ==> e.contrasena == Some(Hash(dto.contrasena.value))
    ensures !Truthy(dto.contrasena) ==> e.contrasena.None?
    ensures e.tiendaId.Some? <==> TruthyId(dto.tiendaId)
    ensures e.tiendaId.Some? ==> e.tiendaId == dto.tiendaId
    ensures e.activo == dto.activo.GetOr(true)
  {
    Empleado(
      id, dto.nombre, dto.email,
      if Truthy(dto.contrasena) then Some(Hash(dto.contrasena.value)) else None,
      dto.cargo, dto.activo.GetOr(true),
      if TruthyId(dto.tiendaId) then dto.tiendaId else None)
  }

  /**
   * The record `update` writes: present fields replace the stored ones, a truthy password is
   * hashed, the store link changes only for a truthy `tienda_id`, other fields keep their values.
   */
  function Merged(e: Empleado, dto: UpdateDto): (m: Empleado)
    ensures m.id == e.id
    ensures dto.nombre.None? ==> m.nombre == e.nombre
    ensures dto.email.None? ==> m.email == e.email
    ensures dto.cargo.None? ==> m.cargo == e.cargo
    ensures dto.activo.None? ==> m.activo == e.activo
    ensures dto.contrasena.None? ==> m.contrasena == e.contrasena
    ensures Truthy(dto.contrasena) ==> m.contrasena == Some(Hash(dto.contrasena.value))
    ensures TruthyId(dto.tiendaId) ==> m.tiendaId == dto.tiendaId
    ensures !TruthyId(dto.tiendaId) ==> m.tiendaId == e.tiendaId
  {
    Empleado(
      e.id,
      dto.nombre.GetOr(e.nombre),
      dto.email.GetOr(e.email),
      if Truthy(dto.contrasena) then Some(Hash(dto.contrasena.value))
      else if dto.contrasena.Some? then dto.contrasena else e.contrasena,
      dto.cargo.GetOr(e.cargo),
      dto.activo.GetOr(e.activo),
      if TruthyId(dto.tiendaId) then dto.tiendaId else e.tiendaId)
  }

  /**
   * Keys are generated from 1 upwards and match the row ids; `emp_email` is a unique
   * column; a stored password is never truthy plaintext.
   */
  ghost predicate TableValid(rows: map<int, Empleado>, nextId: int)
  {
    && 1 <= nextId
    && (forall k :: k in rows ==> 1 <= k < nextId && rows[k].id == k)
    && (forall k :: k in rows ==> StoredWellFormed(rows[k].contrasena))
    && (forall i, j :: i in rows && j in rows && i != j ==> rows[i].email != rows[j].email)
  }

  /** Writing a well-formed row whose email no other row holds keeps the table valid. */
  lemma PutKeepsValid(rows: map<int, Empleado>, nextId: int, e: Empleado)
    requires TableValid(rows, nextId)
    requires 1 <= e.id < nextId && StoredWellFormed(e.contrasena)
    requires forall k :: k in rows && k != e.id ==> rows[k].email != e.email
    ensures TableValid(rows[e.id := e], nextId)
  {
  }

  /** An exact `cargo` is also found by the substring filter of findAll. */
  lemma ExactCargoMatchesFilter(e: Empleado, cargo: string)
    requires e.cargo == cargo
    ensures Matches(e, Filters(None, Some(cargo)))
  {
    if cargo != "" {
      assert OccursAt(e.cargo, cargo, 0);
    }
  }

  /** The converse fails: the substring filter finds a cargo that findByCargo does not. */
  lemma SubstringCargoIsNotExact()
    ensures var e := Empleado(1, "Ana", "ana@x.com", None, "Cajero jefe", true, None);
            Matches(e, Filters(None, Some("Cajero"))) && e.cargo != "Cajero"
  {
    var e := Empleado(1, "Ana", "ana@x.com", None, "Cajero jefe", true, None);
    assert OccursAt(e.cargo, "Cajero", 0);
  }

  /** The service together with the table it reads and writes through its repository. */
  class EmpleadoService {
    var rows: map<int, Empleado>
    var nextId: int

    ghost predicate Valid()
      reads this
    {
      TableValid(rows, nextId)
    }

    /** A row other than `id` already holds this email. */
    predicate Clash(id: int, email: string)
      reads this
    {
      exists k :: k in rows && k != id && rows[k].email == email
    }

    /** What findByCorreo returns: the stored row, password included. */
    function ByCorreo(email: string): Option<Empleado>
      reads this
    {
      match Table.FirstWhere(rows, (e: Empleado) => e.email == email, 0, nextId)
      case Some(k) => Some(rows[k])
      case None => None
    }

    constructor ()
      ensures Valid() && rows == map[] && nextId == 1
    {
      rows, nextId := map[], 1;
    }

    method Create(dto: CreateDto) returns (r: Result<Empleado, Error>)
      requires Valid()
      modifies this
      ensures Valid()
      ensures old(Clash(nextId, dto.email)) ==>
        r == Err(QueryFailed(UniqueViolation)) && rows == old(rows) && nextId == old(nextId) + 1
      ensures !old(Clash(nextId, dto.email)) ==>
        var e := Created(old(nextId), dto);
        rows == old(rows)[old(nextId) := e] && nextId == old(nextId) + 1 && r == Ok(e)
    {
      var hashed := if Truthy(dto.contrasena) then Some(Hash(dto.contrasena.value)) else None;
      var tienda := if TruthyId(dto.tiendaId) then dto.tiendaId else None;
      var e := Empleado(nextId, dto.nombre, dto.email, hashed, dto.cargo, dto.activo.GetOr(true), tienda);
      if Clash(nextId, e.email) {
        // the failed insert has drawn its key from the sequence already
        nextId := nextId + 1;
        return Err(QueryFailed(UniqueViolation));
      }
      PutKeepsValid(rows, nextId + 1, e);
      rows := rows[nextId := e];
      nextId := nextId + 1;
      r := Ok(e);
    }

    method FindAll(f: Filters) returns (r: set<Empleado>)
      requires Valid()
      ensures forall e :: e in r ==> e.id in rows && rows[e.id] == e && Matches(e, f)
      ensures forall k :: k in rows && Matches(rows[k], f) ==> rows[k] in r
    {
      r := set k | k in rows && Matches(rows[k], f) :: rows[k];
    }

    /** Unlike the administrator and customer services, the row comes back unsanitised. */
    method FindByCorreo(email: string) returns (r: Option<Empleado>)
      requires Valid()
      ensures r == ByCorreo(email)
      ensures r.Some? ==> r.value.email == email && r.value.id in rows && r.value == rows[r.value.id]
      ensures r.None? <==> forall k :: k in rows ==> rows[k].email != email
    {
      r := ByCorreo(email);
      if r.None? {
        return;
      }
      var k :| k in rows && rows[k].email == email;
      Table.FirstWhereUnique(rows, (e: Empleado) => e.email == email, nextId, k);
    }

    method FindOne(id: int) returns (r: Result<Empleado, Error>)
      ensures id in rows ==> r == Ok(rows[id])
      ensures id !in rows ==> r == Err(NotFoundError(id))
    {
      if id !in rows {
        return Err(NotFoundError(id));
      }
      r := Ok(rows[id]);
    }

    method FindByTienda(tiendaId: int) returns (r: set<Empleado>)
      requires Valid()
      ensures forall e :: e in r ==> e.id in rows && rows[e.id] == e && e.tiendaId == Some(tiendaId)
      ensures forall k :: k in rows && rows[k].tiendaId == Some(tiendaId) ==> rows[k] in r
    {
      r := set k | k in rows && rows[k].tiendaId == Some(tiendaId) :: rows[k];
    }

    /** Exact match on `emp_cargo`, unlike the substring filter of findAll. */
    method FindByCargo(cargo: string) returns (r: set<Empleado>)
      requires Valid()
      ensures forall e :: e in r ==> e.id in rows && rows[e.id] == e && e.cargo == cargo
      ensures forall k :: k in rows && rows[k].cargo == cargo ==> rows[k] in r
    {
      r := set k | k in rows && rows[k].cargo == cargo :: rows[k];
    }

    method Update(id: int, dto: UpdateDto) returns (r: Result<Empleado, Error>)
      requires Valid()
      modifies this
      ensures Valid() && nextId == old(nextId)
      ensures id !in old(rows) ==> r == Err(NotFoundError(id)) && rows == old(rows)
      ensures id in old(rows) ==>
        var m := Merged(old(rows)[id], dto);
        if old(Clash(id, m.email))
        then r == Err(QueryFailed(UniqueViolation)) && rows == old(rows)
        else rows == old(rows)[id := m] && r == Ok(m)
    {
      var found := FindOne(id);
      if found.Err? {
        return found;
      }
      var pw := dto.contrasena;
      if Truthy(pw) {
        pw := Some(Hash(pw.value));
      }
      // Object.assign(empleado, dto), then the store link for a truthy tienda_id
      var e := found.value;
      e := e.(nombre := dto.nombre.GetOr(e.nombre), email := dto.email.GetOr(e.email),
               cargo := dto.cargo.GetOr(e.cargo), activo := dto.activo.GetOr(e.activo));
      if pw.Some? {
        e := e.(contrasena := pw);
      }
      if TruthyId(dto.tiendaId) {
        e := e.(tiendaId := dto.tiendaId);
      }
      assert e == Merged(rows[id], dto);
      if Clash(id, e.email) {
        return Err(QueryFailed(UniqueViolation));
      }
      PutKeepsValid(rows, nextId, e);
      rows := rows[id := e];
      r := Ok(e);
    }

    method UpdateEstado(id: int, activo: bool) returns (r: Result<Empleado, Error>)
      requires Valid()
      modifies this
      ensures Valid() && nextId == old(nextId)
      ensures id !in old(rows) ==> r == Err(NotFoundError(id)) && rows == old(rows)
      ensures id in old(rows) ==>
        rows == old(rows)[id := old(rows)[id].(activo := activo)] && r == Ok(rows[id])
    {
      var found := FindOne(id);
      if found.Err? {
        return found;
      }
      var e := found.value.(activo := activo);
      PutKeepsValid(rows, nextId, e);
      rows := rows[id := e];
      r := Ok(e);
    }

    method Remove(id: int) returns (r: Result<(), Error>)
      requires Valid()
      modifies this
      ensures Valid() && nextId == old(nextId)
      ensures id in old(rows) ==> r == Ok(()) && rows == old(rows) - {id}
      ensures id !in old(rows) ==> r == Err(NotFoundError(id)) && rows == old(rows)
    {
      var found := FindOne(id);
      if found.Err? {
        return Err(found.error);
      }
      rows := rows - {id};
      r := Ok(());
    }
  }
}
