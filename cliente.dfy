/** Customers: the service that keeps the `clientes` table (cliente.service.ts). */
module Cliente {
  import opened Wrappers
  import opened Errors
  import opened Argon2
  import Table
  import opened Text

  /** A row of `clientes`; `contrasena` is None once the field has been stripped. */
  datatype Cliente = Cliente(
    id: int,
    nombre: string,
    correo: string,
    contrasena: Option<Secret>,
    telefono: string,
    direccion: string,
    activo: bool)

  datatype CreateDto = CreateDto(
    nombre: string,
    correo: string,
    telefono: string,
    direccion: string,
    contrasena: Option<Secret>,
    activo: Option<bool>)

  /** Every field optional, as a partial update. */
  datatype UpdateDto = UpdateDto(
    nombre: Option<string>,
    correo: Option<string>,
    telefono: Option<string>,
    direccion: Option<string>,
    contrasena: Option<Secret>,
    activo: Option<bool>)

  /** sanitizeCliente: the same record without its password field. */
  function Sanitize(c: Cliente): (r: Cliente)
    ensures r.contrasena.None?
  {
    c.(contrasena := None)
  }

  function NotFoundError(id: int): Error
  {
    NotFound("Cliente con ID " + IntToString(id) + " no encontrado")
  }

  /**
   * The record `update` writes: fields present in the dto replace the stored ones, absent
   * fields keep their values, and a supplied password is hashed once by HashIfTruthy.
   */
  function Merged(c: Cliente, dto: UpdateDto): (m: Cliente)
    ensures m.id == c.id
    ensures dto.nombre.None? ==> m.nombre == c.nombre
    ensures dto.correo.None? ==> m.correo == c.correo
    ensures dto.telefono.None? ==> m.telefono == c.telefono
    ensures dto.direccion.None? ==> m.direccion == c.direccion
    ensures dto.activo.None? ==> m.activo == c.activo
    ensures dto.contrasena.None? ==> m.contrasena == c.contrasena
    ensures dto.contrasena.Some? ==> m.contrasena == HashIfTruthy(dto.contrasena)
  {
    Cliente(
      c.id,
      dto.nombre.GetOr(c.nombre),
      dto.correo.GetOr(c.correo),
      if dto.contrasena.Some? then HashIfTruthy(dto.contrasena) else c.contrasena,
      dto.telefono.GetOr(c.telefono),
      dto.direccion.GetOr(c.direccion),
      dto.activo.GetOr(c.activo))
  }

  /**
   * Keys are generated from 1 upwards and match the row ids; `cli_correo` is a unique
   * column; a stored password is never truthy plaintext.
   */
  ghost predicate TableValid(rows: map<int, Cliente>, nextId: int)
  {
    && 1 <= nextId
    && (forall k :: k in rows ==> 1 <= k < nextId && rows[k].id == k)
    && (forall k :: k in rows ==> StoredWellFormed(rows[k].contrasena))
    && (forall i, j :: i in rows && j in rows && i != j ==> rows[i].correo != rows[j].correo)
  }

  /** Writing a well-formed row whose correo no other row holds keeps the table valid. */
  lemma PutKeepsValid(rows: map<int, Cliente>, nextId: int, c: Cliente)
    requires TableValid(rows, nextId)
    requires 1 <= c.id < nextId && StoredWellFormed(c.contrasena)
    requires forall k :: k in rows && k != c.id ==> rows[k].correo != c.correo
    ensures TableValid(rows[c.id := c], nextId)
  {
  }

  /** The service together with the table it reads and writes through its repository. */
  class ClienteService {
    var rows: map<int, Cliente>
    var nextId: int

    ghost predicate Valid()
      reads this
    {
      TableValid(rows, nextId)
    }

    /** A row other than `id` already holds this correo. */
    predicate Clash(id: int, correo: string)
      reads this
    {
      exists k :: k in rows && k != id && rows[k].correo == correo
    }

    /** The stored row `findOne({ where: { cli_correo } })` loads, password included. */
    function RowByCorreo(correo: string): Option<Cliente>
      reads this
    {
      match Table.FirstWhere(rows, (c: Cliente) => c.correo == correo, 0, nextId)
      case Some(k) => Some(rows[k])
      case None => None
    }

    /** What findByCorreo returns. */
    function ByCorreo(correo: string): Option<Cliente>
      reads this
    {
      match RowByCorreo(correo)
      case Some(c) => Some(Sanitize(c))
      case None => None
    }

    constructor ()
      ensures Valid() && rows == map[] && nextId == 1
    {
      rows, nextId := map[], 1;
    }

    method Create(dto: CreateDto) returns (r: Result<Cliente, Error>)
      requires Valid()
      modifies this
      ensures Valid()
      ensures old(Clash(nextId, dto.correo)) ==>
        r == Err(QueryFailed(UniqueViolation)) && rows == old(rows) && nextId == old(nextId) + 1
      ensures !old(Clash(nextId, dto.correo)) ==>
        var c := Cliente(old(nextId), dto.nombre, dto.correo, HashIfTruthy(dto.contrasena),
                         dto.telefono, dto.direccion, dto.activo.GetOr(true));
        rows == old(rows)[old(nextId) := c] && nextId == old(nextId) + 1 && r == Ok(Sanitize(c))
    {
      var c := Cliente(nextId, dto.nombre, dto.correo, dto.contrasena,
                       dto.telefono, dto.direccion, dto.activo.GetOr(true));
      if Truthy(dto.contrasena) {
        c := c.(contrasena := Some(Hash(dto.contrasena.value)));
      }
      if Clash(nextId, c.correo) {
        // the failed insert has drawn its key from the sequence already
        nextId := nextId + 1;
        return Err(QueryFailed(UniqueViolation));
      }
      PutKeepsValid(rows, nextId + 1, c);
      rows := rows[nextId := c];
      nextId := nextId + 1;
      r := Ok(Sanitize(c));
    }

    method FindByCorreo(correo: string) returns (r: Option<Cliente>)
      requires Valid()
      ensures r == ByCorreo(correo)
      ensures r.Some? ==> r.value.contrasena.None? && r.value.correo == correo
                          && r.value.id in rows && r.value == Sanitize(rows[r.value.id])
      ensures r.None? <==> forall k :: k in rows ==> rows[k].correo != correo
    {
      r := ByCorreo(correo);
      if r.None? {
        return;
      }
      var k :| k in rows && rows[k].correo == correo;
      Table.FirstWhereUnique(rows, (c: Cliente) => c.correo == correo, nextId, k);
    }

    method FindAll() returns (r: set<Cliente>)
      requires Valid()
      ensures forall c :: c in r ==> c.contrasena.None? && c.id in rows && c == Sanitize(rows[c.id])
      ensures forall k :: k in rows ==> Sanitize(rows[k]) in r
    {
      r := set k | k in rows :: Sanitize(rows[k]);
    }

    method FindOne(id: int) returns (r: Result<Cliente, Error>)
      ensures id in rows ==> r == Ok(Sanitize(rows[id]))
      ensures id !in rows ==> r == Err(NotFoundError(id))
    {
      if id !in rows {
        return Err(NotFoundError(id));
      }
      r := Ok(Sanitize(rows[id]));
    }

    method Update(id: int, dto: UpdateDto) returns (r: Result<Cliente, Error>)
      requires Valid()
      modifies this
      ensures Valid() && nextId == old(nextId)
      ensures id !in old(rows) ==> r == Err(NotFoundError(id)) && rows == old(rows)
      ensures id in old(rows) ==>
        var m := Merged(old(rows)[id], dto);
        if old(Clash(id, m.correo))
        then r == Err(QueryFailed(UniqueViolation)) && rows == old(rows)
        else rows == old(rows)[id := m] && r == Ok(Sanitize(m))
    {
      var found := FindOne(id);
      if found.Err? {
        return found;
      }
      var pw := dto.contrasena;
      if Truthy(pw) {
        pw := Some(Hash(pw.value));
      }
      // Object.assign(cliente, dto) on the loaded record, which carries no password field
      var c := found.value;
      c := c.(nombre := dto.nombre.GetOr(c.nombre), correo := dto.correo.GetOr(c.correo),
               telefono := dto.telefono.GetOr(c.telefono), direccion := dto.direccion.GetOr(c.direccion),
               activo := dto.activo.GetOr(c.activo), contrasena := pw);
      // save(): an absent password leaves the column as it was
      if c.contrasena.None? {
        c := c.(contrasena := rows[id].contrasena);
      }
      assert c == Merged(rows[id], dto);
      if Clash(id, c.correo) {
        return Err(QueryFailed(UniqueViolation));
      }
      PutKeepsValid(rows, nextId, c);
      rows := rows[id := c];
      r := Ok(Sanitize(c));
    }

    method Remove(id: int) returns (r: Result<(), Error>)
      requires Valid()
      modifies this
      ensures Valid() && nextId == old(nextId)
      ensures id in old(rows) ==> r == Ok(()) && rows == old(rows) - {id}
      ensures id !in old(rows) ==> r == Err(NotFoundError(id)) && rows == old(rows)
    {
      var found := FindOne(id);
      if found.Err? {
        return Err(found.error);
      }
      rows := rows - {id};
      r := Ok(());
    }

    method VerificarContrasena(correo: string, contrasena: string) returns (ok: bool)
      requires Valid()
      ensures RowByCorreo(correo).None? ==> !ok
      ensures RowByCorreo(correo).Some? && !Truthy(RowByCorreo(correo).value.contrasena) ==> !ok
      ensures ok <==> RowByCorreo(correo).Some? && RowByCorreo(correo).value.contrasena
                        == Some(Hash(Plain(contrasena)))
    {
      var c := RowByCorreo(correo);
      if c.None? || !Truthy(c.value.contrasena) {
        return false;
      }
      ok := Verify(c.value.contrasena.value, Plain(contrasena));
    }
  }
}
