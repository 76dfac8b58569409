/**
 * Administrators: the entity with its password hook (administrador.entity.ts) and the
 * service that keeps the `administradores` table (administrador.service.ts).
 */
module Administrador {
  import opened Wrappers
  import opened Errors
  import opened Argon2
  import Table
  import opened Text

  /** A row of `administradores`; `contrasena` is None once the field has been stripped. */
  datatype Admin = Admin(
    id: int,
    nombre: string,
    usuario: string,
    contrasena: Option<Secret>,
    correo: string,
    activo: bool)

  datatype CreateDto = CreateDto(
    nombre: string,
    usuario: string,
    contrasena: Option<Secret>,
    correo: string,
    activo: Option<bool>)

  /** Every field optional, as a partial update. */
  datatype UpdateDto = UpdateDto(
    nombre: Option<string>,
    usuario: Option<string>,
    contrasena: Option<Secret>,
    correo: Option<string>,
    activo: Option<bool>)

  /** sanitizeAdmin: the same record without its password field. */
  function Sanitize(a: Admin): (r: Admin)
    ensures r.contrasena.None?
  {
    a.(contrasena := None)
  }

  function NotFoundError(id: int): Error
  {
    NotFound("Administrador con ID " + IntToString(id) + " no encontrado")
  }

  /**
   * The password create persists for a supplied value p: the service hashes a truthy p and the
   * entity hook, running when the entity instance from `repository.create` is inserted, hashes
   * the result again.
   */
  function SavedPassword(p: Option<Secret>): (r: Option<Secret>)
    ensures Truthy(p) ==> r.Some? && r.value.Digest? && !Verify(r.value, p.value)
    ensures Truthy(p) ==> Verify(r.value, Hash(p.value))
    ensures !Truthy(p) ==> r == p
  {
    if Truthy(p) then
      DoubleHashRejectsPassword(p.value);
      Some(Hash(Hash(p.value)))
    else p
  }

  /**
   * The record `update` writes: fields present in the dto replace the stored ones, absent
   * fields keep their values, and a supplied password is hashed once by the service. The record
   * saved is the plain object findOne returned, not an entity instance, so the hook does not run.
   */
  function Merged(a: Admin, dto: UpdateDto): (m: Admin)
    ensures m.id == a.id
    ensures dto.nombre.None? ==> m.nombre == a.nombre
    ensures dto.usuario.None? ==> m.usuario == a.usuario
    ensures dto.correo.None? ==> m.correo == a.correo
    ensures dto.activo.None? ==> m.activo == a.activo
    ensures dto.contrasena.None? ==> m.contrasena == a.contrasena
    ensures dto.contrasena.Some? ==> m.contrasena == HashIfTruthy(dto.contrasena)
    ensures Truthy(dto.contrasena) ==> Verify(m.contrasena.value, dto.contrasena.value)
  {
    Admin(
      a.id,
      dto.nombre.GetOr(a.nombre),
      dto.usuario.GetOr(a.usuario),
      if dto.contrasena.Some? then HashIfTruthy(dto.contrasena) else a.contrasena,
      dto.correo.GetOr(a.correo),
      dto.activo.GetOr(a.activo))
  }

  /**
   * Keys are generated from 1 upwards and match the row ids; `adm_correo` and `adm_usuario`
   * are unique columns; a stored password is never truthy plaintext.
   */
  ghost predicate TableValid(rows: map<int, Admin>, nextId: int)
  {
    && 1 <= nextId
    && (forall k :: k in rows ==> 1 <= k < nextId && rows[k].id == k)
    && (forall k :: k in rows ==> StoredWellFormed(rows[k].contrasena))
    && (forall i, j :: i in rows && j in rows && i != j ==>
          rows[i].correo != rows[j].correo && rows[i].usuario != rows[j].usuario)
  }

  /** Writing a well-formed row whose unique columns clash with no other row keeps the table valid. */
  lemma PutKeepsValid(rows: map<int, Admin>, nextId: int, a: Admin)
    requires TableValid(rows, nextId)
    requires 1 <= a.id < nextId && StoredWellFormed(a.contrasena)
    requires forall k :: k in rows && k != a.id ==> rows[k].correo != a.correo && rows[k].usuario != a.usuario
    ensures TableValid(rows[a.id := a], nextId)
  {
  }

  /** An entity instance; its lifecycle hook rewrites the password field in place. */
  class AdministradorEntity {
    var id: int
    var nombre: string
    var usuario: string
    var contrasena: Option<Secret>
    var correo: string
    var activo: bool

    function Row(): Admin
      reads this
    {
      Admin(id, nombre, usuario, contrasena, correo, activo)
    }

    constructor (a: Admin)
      ensures Row() == a
    {
      id, nombre, usuario, contrasena, correo, activo :=
        a.id, a.nombre, a.usuario, a.contrasena, a.correo, a.activo;
    }

    /** The @BeforeInsert/@BeforeUpdate hook hashPassword; it runs only on entity instances. */
    method HashPassword()
      modifies this`contrasena
      ensures Truthy(old(contrasena)) ==> contrasena == Some(Hash(old(contrasena).value))
      ensures !Truthy(old(contrasena)) ==> contrasena == old(contrasena)
    {
      if Truthy(contrasena) {
        contrasena := Some(Hash(contrasena.value));
      }
    }

    /**
     * validarContrasena: argon2.verify against the stored field. The field is unset on an entity
     * loaded without it, and verify throws on that or on a value that is not an encoded hash.
     */
    function ValidarContrasena(plain: string): (r: Result<bool, Error>)
      reads this
      ensures r.Err? <==> contrasena.None? || !contrasena.value.Digest?
      ensures r.Err? ==> r.error == MalformedHash
      ensures r.Ok? ==> (r.value <==> contrasena.value == Hash(Plain(plain)))
    {
      if contrasena.None? || !contrasena.value.Digest? then Err(MalformedHash)
      else Ok(Verify(contrasena.value, Plain(plain)))
    }
  }

  /** The service together with the table it reads and writes through its repository. */
  class AdministradorService {
    var rows: map<int, Admin>
    var nextId: int

    ghost predicate Valid()
      reads this
    {
      TableValid(rows, nextId)
    }

    /** A row other than `id` already holds this correo or this usuario. */
    predicate Clash(id: int, correo: string, usuario: string)
      reads this
    {
      exists k :: k in rows && k != id && (rows[k].correo == correo || rows[k].usuario == usuario)
    }

    /** The stored row `findOne({ where: { adm_correo } })` loads, password included. */
    function RowByCorreo(correo: string): Option<Admin>
      reads this
    {
      match Table.FirstWhere(rows, (a: Admin) => a.correo == correo, 0, nextId)
      case Some(k) => Some(rows[k])
      case None => None
    }

    /** What findByCorreo returns. */
    function ByCorreo(correo: string): Option<Admin>
      reads this
    {
      match RowByCorreo(correo)
      case Some(a) => Some(Sanitize(a))
      case None => None
    }

    constructor ()
      ensures Valid() && rows == map[] && nextId == 1
    {
      rows, nextId := map[], 1;
    }

    method Create(dto: CreateDto) returns (r: Result<Admin, Error>)
      requires Valid()
      modifies this
      ensures Valid()
      ensures old(Clash(nextId, dto.correo, dto.usuario)) ==>
        r == Err(QueryFailed(UniqueViolation)) && rows == old(rows) && nextId == old(nextId) + 1
      ensures !old(Clash(nextId, dto.correo, dto.usuario)) ==>
        var a := Admin(old(nextId), dto.nombre, dto.usuario, SavedPassword(dto.contrasena),
                       dto.correo, dto.activo.GetOr(true));
        rows == old(rows)[old(nextId) := a] && nextId == old(nextId) + 1 && r == Ok(Sanitize(a))
    {
      var e := new AdministradorEntity(
        Admin(nextId, dto.nombre, dto.usuario, dto.contrasena, dto.correo, dto.activo.GetOr(true)));
      if Truthy(dto.contrasena) {
        e.contrasena := Some(Hash(dto.contrasena.value));
      }
      // save(): the insert hook runs, the key is drawn from the sequence, then the unique
      // columns are checked; a failed insert does not give its key back
      e.HashPassword();
      var saved := e.Row();
      assert saved.contrasena == SavedPassword(dto.contrasena);
      if Clash(nextId, saved.correo, saved.usuario) {
        nextId := nextId + 1;
        r := Err(QueryFailed(UniqueViolation));
        return;
      }
      PutKeepsValid(rows, nextId + 1, saved);
      rows := rows[nextId := saved];
      nextId := nextId + 1;
      r := Ok(Sanitize(saved));
    }

    method FindByCorreo(correo: string) returns (r: Option<Admin>)
      requires Valid()
      ensures r == ByCorreo(correo)
      ensures r.Some? ==> r.value.contrasena.None? && r.value.correo == correo
                          && r.value.id in rows && r.value == Sanitize(rows[r.value.id])
      ensures r.None? <==> forall k :: k in rows ==> rows[k].correo != correo
    {
      r := ByCorreo(correo);
      if r.None? {
        return;
      }
      var k :| k in rows && rows[k].correo == correo;
      Table.FirstWhereUnique(rows, (a: Admin) => a.correo == correo, nextId, k);
    }

    method FindAll() returns (r: set<Admin>)
      requires Valid()
      ensures forall a :: a in r ==> a.contrasena.None? && a.id in rows && a == Sanitize(rows[a.id])
      ensures forall k :: k in rows ==> Sanitize(rows[k]) in r
    {
      r := set k | k in rows :: Sanitize(rows[k]);
    }

    method FindOne(id: int) returns (r: Result<Admin, Error>)
      ensures id in rows ==> r == Ok(Sanitize(rows[id]))
      ensures id !in rows ==> r == Err(NotFoundError(id))
    {
      if id !in rows {
        return Err(NotFoundError(id));
      }
      r := Ok(Sanitize(rows[id]));
    }

    method Update(id: int, dto: UpdateDto) returns (r: Result<Admin, Error>)
      requires Valid()
      modifies this
      ensures Valid() && nextId == old(nextId)
      ensures id !in old(rows) ==> r == Err(NotFoundError(id)) && rows == old(rows)
      ensures id in old(rows) ==>
        var m := Merged(old(rows)[id], dto);
        if old(Clash(id, m.correo, m.usuario))
        then r == Err(QueryFailed(UniqueViolation)) && rows == old(rows)
        else rows == old(rows)[id := m] && r == Ok(Sanitize(m))
    {
      var found := FindOne(id);
      if found.Err? {
        return found;
      }
      var pw := dto.contrasena;
      if Truthy(pw) {
        pw := Some(Hash(pw.value));
      }
      // Object.assign(admin, dto) on the plain record findOne returned, which carries no
      // password field; save() of a plain object runs no entity hook
      var saved := found.value;
      saved := saved.(nombre := dto.nombre.GetOr(saved.nombre), usuario := dto.usuario.GetOr(saved.usuario),
                      correo := dto.correo.GetOr(saved.correo), activo := dto.activo.GetOr(saved.activo),
                      contrasena := pw);
      // an absent password leaves the column as it was
      if saved.contrasena.None? {
        saved := saved.(contrasena := rows[id].contrasena);
      }
      assert saved.contrasena == Merged(rows[id], dto).contrasena;
      assert saved == Merged(rows[id], dto);
      if Clash(id, saved.correo, saved.usuario) {
        return Err(QueryFailed(UniqueViolation));
      }
      PutKeepsValid(rows, nextId, saved);
      rows := rows[id := saved];
      r := Ok(Sanitize(saved));
    }

    method Remove(id: int) returns (r: Result<(), Error>)
      requires Valid()
      modifies this
      ensures Valid() && nextId == old(nextId)
      ensures id in old(rows) ==> r == Ok(()) && rows == old(rows) - {id}
      ensures id !in old(rows) ==> r == Err(NotFoundError(id)) && rows == old(rows)
    {
      var found := FindOne(id);
      if found.Err? {
        return Err(found.error);
      }
      rows := rows - {id};
      r := Ok(());
    }

    method VerificarContrasena(correo: string, contrasena: string) returns (ok: bool)
      requires Valid()
      ensures RowByCorreo(correo).None? ==> !ok
      ensures RowByCorreo(correo).Some? && !Truthy(RowByCorreo(correo).value.contrasena) ==> !ok
      ensures ok <==> RowByCorreo(correo).Some? && RowByCorreo(correo).value.contrasena
                        == Some(Hash(Plain(contrasena)))
    {
      var a := RowByCorreo(correo);
      if a.None? || !Truthy(a.value.contrasena) {
        return false;
      }
      ok := Verify(a.value.contrasena.value, Plain(contrasena));
    }
  }
}
