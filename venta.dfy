/** Sales (venta.service.ts): the `ventas` table and the recomputation of a sale's total. */
module Venta {
  import opened Wrappers
  import opened Errors
  import opened Text
  import opened Detalles
  import Table

  /** A row of `ventas`; the total is in cents and the date is left out. */
  datatype Venta = Venta(
    id: int,
    total: int,
    cliId: int,
    empId: int,
    tiendaId: int,
    activa: bool)

  datatype CreateDto = CreateDto(cliId: int, empId: int, tiendaId: int, activa: Option<bool>)

  /** The partial dto that update assigns over the loaded sale. */
  datatype UpdateDto = UpdateDto(cliId: Option<int>, empId: Option<int>, tiendaId: Option<int>, activa: Option<bool>)

  const ClienteMissing: string := "Cliente no encontrado"
  const EmpleadoMissing: string := "Empleado no encontrado"
  const TiendaMissing: string := "Tienda no encontrada"

  function NotFoundError(id: int): Error
  {
    NotFound("Venta con ID " + IntToString(id) + " no encontrada")
  }

  /** Object.assign(venta, dto): present fields replace, absent ones stay; the total is untouched. */
  function Merged(v: Venta, dto: UpdateDto): (m: Venta)
    ensures m.id == v.id && m.total == v.total
    ensures m.cliId == dto.cliId.GetOr(v.cliId) && m.empId == dto.empId.GetOr(v.empId)
    ensures m.tiendaId == dto.tiendaId.GetOr(v.tiendaId) && m.activa == dto.activa.GetOr(v.activa)
  {
    v.(cliId := dto.cliId.GetOr(v.cliId), empId := dto.empId.GetOr(v.empId),
       tiendaId := dto.tiendaId.GetOr(v.tiendaId), activa := dto.activa.GetOr(v.activa))
  }

  /**
   * The sales table after recalcularTotal(id): sale id's total becomes the sum of its details'
   * subtotals; every other field and every other sale are as before; an unknown id changes nothing.
   */
  function Recalculated(ventas: map<int, Venta>, ds: map<int, Detalle>, hi: int, id: int): (m: map<int, Venta>)
    ensures m.Keys == ventas.Keys
    ensures id in ventas ==> m[id].total == Total(ds, id, hi) && m[id] == ventas[id].(total := m[id].total)
    ensures forall k :: k in ventas && k != id ==> m[k] == ventas[k]
  {
    if id in ventas then ventas[id := ventas[id].(total := Total(ds, id, hi))] else ventas
  }

  /** Every sale's total is the sum of its details' subtotals. */
  ghost predicate TotalsMatch(ventas: map<int, Venta>, ds: map<int, Detalle>, hi: int)
  {
    forall k :: k in ventas ==> ventas[k].total == Total(ds, k, hi)
  }

  /** Every sale other than `skip` has its total right. */
  ghost predicate TotalsMatchExcept(ventas: map<int, Venta>, ds: map<int, Detalle>, hi: int, skip: int)
  {
    forall k :: k in ventas && k != skip ==> ventas[k].total == Total(ds, k, hi)
  }

  /** Recomputing twice with no detail change in between gives the same table as once. */
  lemma RecalculatedIdempotent(ventas: map<int, Venta>, ds: map<int, Detalle>, hi: int, id: int)
    ensures Recalculated(Recalculated(ventas, ds, hi, id), ds, hi, id) == Recalculated(ventas, ds, hi, id)
  {
  }

  /** Recomputing the one sale whose total was off restores the invariant. */
  lemma RecalculatedRestores(ventas: map<int, Venta>, ds: map<int, Detalle>, hi: int, id: int)
    requires TotalsMatchExcept(ventas, ds, hi, id)
    ensures TotalsMatch(Recalculated(ventas, ds, hi, id), ds, hi)
  {
  }

  /** The service with its own table, the shared detail repository, and the keys of the related tables. */
  class VentaService {
    var ventas: map<int, Venta>
    var nextId: int
    var clientes: set<int>
    var empleados: set<int>
    var tiendas: set<int>
    const detalleRepo: DetalleRepository

    ghost predicate Valid()
      reads this, detalleRepo
    {
      && nextId >= 1
      && (forall k :: k in ventas ==> 1 <= k < nextId && ventas[k].id == k)
      && detalleRepo.Valid()
    }

    ghost predicate Consistent()
      reads this, detalleRepo
    {
      TotalsMatch(ventas, detalleRepo.rows, detalleRepo.nextId)
    }

    /** No detail row refers to sale v. */
    predicate NoDetailFor(v: int)
      reads detalleRepo
    {
      forall k :: k in detalleRepo.rows ==> detalleRepo.rows[k].ventaId != v
    }

    constructor (detalleRepo: DetalleRepository, clientes: set<int>, empleados: set<int>, tiendas: set<int>)
      requires detalleRepo.Valid()
      ensures Valid() && ventas == map[] && nextId == 1 && this.detalleRepo == detalleRepo
      ensures this.clientes == clientes && this.empleados == empleados && this.tiendas == tiendas
    {
      this.ventas, this.nextId := map[], 1;
      this.clientes, this.empleados, this.tiendas := clientes, empleados, tiendas;
      this.detalleRepo := detalleRepo;
    }

    /**
     * create: the cliente, the empleado and the tienda are looked up in that order and the first
     * missing one is reported; otherwise a sale with total 0 is stored, active unless the dto says not.
     */
    method Create(dto: CreateDto) returns (r: Result<Venta, Error>)
      requires Valid()
      modifies this
      ensures Valid()
      ensures clientes == old(clientes) && empleados == old(empleados) && tiendas == old(tiendas)
      ensures dto.cliId !in clientes ==> r == Err(NotFound(ClienteMissing))
      ensures dto.cliId in clientes && dto.empId !in empleados ==> r == Err(NotFound(EmpleadoMissing))
      ensures dto.cliId in clientes && dto.empId in empleados && dto.tiendaId !in tiendas ==>
                r == Err(NotFound(TiendaMissing))
      ensures r.Err? ==> ventas == old(ventas) && nextId == old(nextId)
      ensures r.Ok? <==> dto.cliId in clientes && dto.empId in empleados && dto.tiendaId in tiendas
      ensures r.Ok? ==>
                && r.value == Venta(old(nextId), 0, dto.cliId, dto.empId, dto.tiendaId, dto.activa.GetOr(true))
                && ventas == old(ventas)[r.value.id := r.value] && nextId == old(nextId) + 1
      ensures old(Consistent()) && NoDetailFor(old(nextId)) ==> Consistent()
    {
      if dto.cliId !in clientes {
        return Err(NotFound(ClienteMissing));
      }
      if dto.empId !in empleados {
        return Err(NotFound(EmpleadoMissing));
      }
      if dto.tiendaId !in tiendas {
        return Err(NotFound(TiendaMissing));
      }
      var v := Venta(nextId, 0, dto.cliId, dto.empId, dto.tiendaId, dto.activa.GetOr(true));
      if NoDetailFor(nextId) {
        TotalNone(detalleRepo.rows, nextId, detalleRepo.nextId);
      }
      ventas := ventas[nextId := v];
      nextId := nextId + 1;
      r := Ok(v);
    }

    /** findAll: every sale, highest id first. */
    method FindAll() returns (r: seq<Venta>)
      requires Valid()
      ensures forall i :: 0 <= i < |r| ==> r[i].id in ventas && ventas[r[i].id] == r[i]
      ensures forall k :: k in ventas ==> ventas[k] in r
      ensures forall i, j :: 0 <= i < j < |r| ==> r[i].id > r[j].id
    {
      var ks := Table.KeysDescending(ventas, 1, nextId);
      var vs := ventas;
      r := seq(|ks|, i requires 0 <= i < |ks| => vs[ks[i]]);
      forall k | k in ventas
        ensures ventas[k] in r
      {
        var i :| 0 <= i < |ks| && ks[i] == k;
        assert r[i] == ventas[k];
      }
    }

    method FindOne(id: int) returns (r: Result<Venta, Error>)
      ensures id in ventas ==> r == Ok(ventas[id])
      ensures id !in ventas ==> r == Err(NotFoundError(id))
    {
      if id !in ventas {
        return Err(NotFoundError(id));
      }
      r := Ok(ventas[id]);
    }

    /** recalcularTotal: the sum of the subtotals of the details whose venta_id is id, saved as the total. */
    method RecalcularTotal(id: int) returns (r: Result<Venta, Error>)
      requires Valid()
      modifies this
      ensures Valid() && nextId == old(nextId)
      ensures clientes == old(clientes) && empleados == old(empleados) && tiendas == old(tiendas)
      ensures ventas == Recalculated(old(ventas), detalleRepo.rows, detalleRepo.nextId, id)
      ensures id in ventas ==> r == Ok(ventas[id]) && ventas[id].total == detalleRepo.SumFor(id)
      ensures id !in ventas ==> r == Err(NotFoundError(id)) && ventas == old(ventas)
    {
      r := FindOne(id);
      if r.Err? {
        return;
      }
      var v := r.value.(total := detalleRepo.SumFor(id));
      ventas := ventas[id := v];
      r := Ok(v);
    }

    method Update(id: int, dto: UpdateDto) returns (r: Result<Venta, Error>)
      requires Valid()
      modifies this
      ensures Valid() && nextId == old(nextId)
      ensures clientes == old(clientes) && empleados == old(empleados) && tiendas == old(tiendas)
      ensures id !in old(ventas) ==> r == Err(NotFoundError(id)) && ventas == old(ventas)
      ensures id in old(ventas) ==>
                r == Ok(Merged(old(ventas)[id], dto)) && ventas == old(ventas)[id := r.value]
      ensures old(Consistent()) ==> Consistent()
    {
      r := FindOne(id);
      if r.Err? {
        return;
      }
      var v := Merged(r.value, dto);
      ventas := ventas[id := v];
      r := Ok(v);
    }

    method Remove(id: int) returns (r: Result<(), Error>)
      requires Valid()
      modifies this
      ensures Valid() && nextId == old(nextId)
      ensures clientes == old(clientes) && empleados == old(empleados) && tiendas == old(tiendas)
      ensures id in old(ventas) ==> r == Ok(()) && ventas == old(ventas) - {id}
      ensures id !in old(ventas) ==> r == Err(NotFoundError(id)) && ventas == old(ventas)
      ensures old(Consistent()) ==> Consistent()
    {
      var found := FindOne(id);
      if found.Err? {
        return Err(found.error);
      }
      ventas := ventas - {id};
      r := Ok(());
    }
  }
}
