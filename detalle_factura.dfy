/**
 * Invoice details (detalle-factura.service.ts): every write of a detail is followed by a
 * recomputation of one sale's total through the sales service.
 */
module DetalleFactura {
  import opened Wrappers
  import opened Errors
  import opened Text
  import opened Detalles
  import Venta

  datatype CreateDto = CreateDto(ventaId: int, productoId: int, cantidad: int, precio: int)

  datatype UpdateDto = UpdateDto(
    ventaId: Option<int>,
    productoId: Option<int>,
    cantidad: Option<int>,
    precio: Option<int>)

  const ProductoMissing: string := "Producto no encontrado"

  function NotFoundError(id: int): Error
  {
    NotFound("Detalle con ID " + IntToString(id) + " no encontrado")
  }

  /** The row create saves, before the database assigns its key: subtotal is quantity times unit price. */
  function Created(dto: CreateDto): (d: Detalle)
    ensures d.ventaId == dto.ventaId && d.productoId == dto.productoId
    ensures d.cantidad == dto.cantidad && d.precio == dto.precio
    ensures d.subtotal == d.cantidad * d.precio
  {
    Detalle(0, dto.ventaId, dto.productoId, dto.cantidad, dto.precio, dto.cantidad * dto.precio)
  }

  /** update's row: the dto assigned over the loaded one, then the subtotal recomputed from the result. */
  function Merged(d: Detalle, dto: UpdateDto): (m: Detalle)
    ensures m.id == d.id
    ensures m.ventaId == dto.ventaId.GetOr(d.ventaId) && m.productoId == dto.productoId.GetOr(d.productoId)
    ensures m.cantidad == dto.cantidad.GetOr(d.cantidad) && m.precio == dto.precio.GetOr(d.precio)
    ensures m.subtotal == m.cantidad * m.precio
  {
    var cantidad := dto.cantidad.GetOr(d.cantidad);
    var precio := dto.precio.GetOr(d.precio);
    Detalle(d.id, dto.ventaId.GetOr(d.ventaId), dto.productoId.GetOr(d.productoId), cantidad, precio, cantidad * precio)
  }

  class DetalleFacturaService {
    const detalleRepo: DetalleRepository
    const ventaService: Venta.VentaService
    var productos: set<int>

    /** Both services were given the same detail repository. */
    ghost predicate Valid()
      reads this, ventaService, detalleRepo
    {
      ventaService.detalleRepo == detalleRepo && ventaService.Valid()
    }

    /** The dto leaves detail id on the sale it already names. */
    predicate KeepsSale(id: int, dto: UpdateDto)
      reads detalleRepo
    {
      dto.ventaId.None? || id !in detalleRepo.rows || dto.ventaId == Some(detalleRepo.rows[id].ventaId)
    }

    constructor (ventaService: Venta.VentaService, productos: set<int>)
      requires ventaService.Valid()
      ensures Valid() && this.ventaService == ventaService && this.productos == productos
    {
      this.detalleRepo := ventaService.detalleRepo;
      this.ventaService := ventaService;
      this.productos := productos;
    }

    /**
     * create: an unknown product is refused before anything is saved. Otherwise the detail is saved
     * first and the total of its sale is recomputed after, so a detail naming an unknown sale stays
     * saved while create reports that sale as not found.
     */
    method Create(dto: CreateDto) returns (r: Result<Detalle, Error>)
      requires Valid()
      modifies detalleRepo, ventaService
      ensures Valid() && productos == old(productos) && ventaService.nextId == old(ventaService.nextId)
      ensures ventaService.clientes == old(ventaService.clientes) && ventaService.empleados == old(ventaService.empleados)
      ensures ventaService.tiendas == old(ventaService.tiendas)
      ensures dto.productoId !in productos ==>
                r == Err(NotFound(ProductoMissing)) && unchanged(detalleRepo) && unchanged(ventaService)
      ensures dto.productoId in productos ==>
                var d := Created(dto).(id := old(detalleRepo.nextId));
                && detalleRepo.rows == old(detalleRepo.rows)[d.id := d]
                && detalleRepo.nextId == old(detalleRepo.nextId) + 1
                && ventaService.ventas == Venta.Recalculated(old(ventaService.ventas), detalleRepo.rows, detalleRepo.nextId, dto.ventaId)
                && (dto.ventaId in old(ventaService.ventas) ==> r == Ok(d))
                && (dto.ventaId !in old(ventaService.ventas) ==> r == Err(Venta.NotFoundError(dto.ventaId)))
      ensures old(ventaService.Consistent()) ==> ventaService.Consistent()
    {
      if dto.productoId !in productos {
        return Err(NotFound(ProductoMissing));
      }
      ghost var before := detalleRepo.rows;
      ghost var hi := detalleRepo.nextId;
      var saved := detalleRepo.Insert(Created(dto));
      forall v | v != saved.ventaId
        ensures Total(detalleRepo.rows, v, detalleRepo.nextId) == Total(before, v, hi)
      {
        TotalAppend(before, v, hi, saved);
      }
      var total := ventaService.RecalcularTotal(dto.ventaId);
      if total.Err? {
        return Err(total.error);
      }
      r := Ok(saved);
    }

    method FindOne(id: int) returns (r: Result<Detalle, Error>)
      ensures id in detalleRepo.rows ==> r == Ok(detalleRepo.rows[id])
      ensures id !in detalleRepo.rows ==> r == Err(NotFoundError(id))
    {
      if id !in detalleRepo.rows {
        return Err(NotFoundError(id));
      }
      r := Ok(detalleRepo.rows[id]);
    }

    /**
     * update: the merged row is saved, then only the total of the sale it now names is recomputed.
     * When the dto moves the detail to another sale, the previous sale keeps its old total.
     */
    method Update(id: int, dto: UpdateDto) returns (r: Result<Detalle, Error>)
      requires Valid()
      modifies detalleRepo, ventaService
      ensures Valid() && productos == old(productos) && ventaService.nextId == old(ventaService.nextId)
      ensures ventaService.clientes == old(ventaService.clientes) && ventaService.empleados == old(ventaService.empleados)
      ensures ventaService.tiendas == old(ventaService.tiendas)
      ensures id !in old(detalleRepo.rows) ==>
                r == Err(NotFoundError(id)) && unchanged(detalleRepo) && unchanged(ventaService)
      ensures id in old(detalleRepo.rows) ==>
                var m := Merged(old(detalleRepo.rows)[id], dto);
                && detalleRepo.rows == old(detalleRepo.rows)[id := m]
                && detalleRepo.nextId == old(detalleRepo.nextId)
                && ventaService.ventas == Venta.Recalculated(old(ventaService.ventas), detalleRepo.rows, detalleRepo.nextId, m.ventaId)
                && (m.ventaId in old(ventaService.ventas) ==> r == Ok(m))
                && (m.ventaId !in old(ventaService.ventas) ==> r == Err(Venta.NotFoundError(m.ventaId)))
      ensures id in old(detalleRepo.rows) && old(ventaService.Consistent()) ==>
                Venta.TotalsMatchExcept(ventaService.ventas, detalleRepo.rows, detalleRepo.nextId, old(detalleRepo.rows)[id].ventaId)
      ensures old(ventaService.Consistent()) && old(KeepsSale(id, dto)) ==> ventaService.Consistent()
    {
      var found := FindOne(id);
      if found.Err? {
        return Err(found.error);
      }
      ghost var before := detalleRepo.rows;
      var m := Merged(found.value, dto);
      detalleRepo.Put(m);
      forall v | v != m.ventaId && v != found.value.ventaId
        ensures Total(detalleRepo.rows, v, detalleRepo.nextId) == Total(before, v, detalleRepo.nextId)
      {
        TotalPut(before, v, detalleRepo.nextId, m);
      }
      var total := ventaService.RecalcularTotal(m.ventaId);
      if total.Err? {
        return Err(total.error);
      }
      r := Ok(m);
    }

    /** remove: the detail is deleted, then the total of the sale it named is recomputed. */
    method Remove(id: int) returns (r: Result<(), Error>)
      requires Valid()
      modifies detalleRepo, ventaService
      ensures Valid() && productos == old(productos) && ventaService.nextId == old(ventaService.nextId)
      ensures ventaService.clientes == old(ventaService.clientes) && ventaService.empleados == old(ventaService.empleados)
      ensures ventaService.tiendas == old(ventaService.tiendas)
      ensures id !in old(detalleRepo.rows) ==>
                r == Err(NotFoundError(id)) && unchanged(detalleRepo) && unchanged(ventaService)
      ensures id in old(detalleRepo.rows) ==>
                var v := old(detalleRepo.rows)[id].ventaId;
                && detalleRepo.rows == old(detalleRepo.rows) - {id}
                && detalleRepo.nextId == old(detalleRepo.nextId)
                && ventaService.ventas == Venta.Recalculated(old(ventaService.ventas), detalleRepo.rows, detalleRepo.nextId, v)
                && (v in old(ventaService.ventas) ==> r == Ok(()))
                && (v !in old(ventaService.ventas) ==> r == Err(Venta.NotFoundError(v)))
      ensures old(ventaService.Consistent()) ==> ventaService.Consistent()
    {
      var found := FindOne(id);
      if found.Err? {
        return Err(found.error);
      }
      ghost var before := detalleRepo.rows;
      detalleRepo.Delete(id);
      forall v | v != found.value.ventaId
        ensures Total(detalleRepo.rows, v, detalleRepo.nextId) == Total(before, v, detalleRepo.nextId)
      {
        TotalRemove(before, v, detalleRepo.nextId, id);
      }
      var total := ventaService.RecalcularTotal(found.value.ventaId);
      if total.Err? {
        return Err(total.error);
      }
      r := Ok(());
    }
  }

  /**
   * A run in which update moves a detail from sale 1 to sale 2: sale 1 keeps the total it had
   * with the detail, although no detail of sale 1 remains.
   */
  method MovedDetailLeavesStaleTotal() returns (stale: int, actual: int)
    ensures stale == 1000 && actual == 0
  {
    var repo := new DetalleRepository();
    var ventas := new Venta.VentaService(repo, {7}, {8}, {9});
    var v1 := ventas.Create(Venta.CreateDto(7, 8, 9, None));
    var v2 := ventas.Create(Venta.CreateDto(7, 8, 9, None));
    var service := new DetalleFacturaService(ventas, {5});
    var d := service.Create(CreateDto(1, 5, 2, 500));
    assert repo.rows[1].ventaId == 1 && repo.rows[1].subtotal == 1000;
    var moved := service.Update(1, UpdateDto(Some(2), None, None, None));
    stale := ventas.ventas[1].total;
    actual := repo.SumFor(1);
  }
}
