/**
 * The `detalle_factura` table (detalle-factura.entity.ts) and the sum that sale totals are
 * made of. Amounts are integers in cents.
 */
module Detalles {
  /** A row of `detalle_factura`: quantity, unit price and subtotal of one product on one sale. */
  datatype Detalle = Detalle(
    id: int,
    ventaId: int,
    productoId: int,
    cantidad: int,
    precio: int,
    subtotal: int)

  /** What the row under key k adds to the total of sale v. */
  function Contribution(ds: map<int, Detalle>, k: int, v: int): int
  {
    if k in ds && ds[k].ventaId == v then ds[k].subtotal else 0
  }

  /** The sum of `det_subtotal` over the rows with `venta_id = v` among the keys in [0, hi). */
  function Total(ds: map<int, Detalle>, v: int, hi: int): int
    decreases hi
  {
    if hi <= 0 then 0 else Total(ds, v, hi - 1) + Contribution(ds, hi - 1, v)
  }

  /** Two tables that contribute alike below hi have the same total. */
  lemma {:induction false} TotalAgree(ds: map<int, Detalle>, es: map<int, Detalle>, v: int, hi: int)
    requires forall k :: 0 <= k < hi ==> Contribution(ds, k, v) == Contribution(es, k, v)
    ensures Total(ds, v, hi) == Total(es, v, hi)
    decreases hi
  {
    if hi > 0 {
      TotalAgree(ds, es, v, hi - 1);
    }
  }

  /** A sale no row refers to has total 0. */
  lemma {:induction false} TotalNone(ds: map<int, Detalle>, v: int, hi: int)
    requires forall k :: k in ds ==> ds[k].ventaId != v
    ensures Total(ds, v, hi) == 0
    decreases hi
  {
    if hi > 0 {
      TotalNone(ds, v, hi - 1);
    }
  }

  /** Writing one row changes a total by that row's new contribution less its old one. */
  lemma {:induction false} TotalPut(ds: map<int, Detalle>, v: int, hi: int, d: Detalle)
    requires 0 <= d.id < hi
    ensures Total(ds[d.id := d], v, hi) ==
            Total(ds, v, hi) - Contribution(ds, d.id, v) + (if d.ventaId == v then d.subtotal else 0)
    decreases hi
  {
    if d.id == hi - 1 {
      TotalAgree(ds[d.id := d], ds, v, hi - 1);
    } else {
      TotalPut(ds, v, hi - 1, d);
    }
  }

  /** Deleting one row takes its contribution away. */
  lemma {:induction false} TotalRemove(ds: map<int, Detalle>, v: int, hi: int, k: int)
    requires 0 <= k < hi
    ensures Total(ds - {k}, v, hi) == Total(ds, v, hi) - Contribution(ds, k, v)
    decreases hi
  {
    if k == hi - 1 {
      TotalAgree(ds - {k}, ds, v, hi - 1);
    } else {
      TotalRemove(ds, v, hi - 1, k);
    }
  }

  /** Appending a row under a fresh key hi adds its subtotal to its own sale only. */
  lemma TotalAppend(ds: map<int, Detalle>, v: int, hi: int, d: Detalle)
    requires 0 <= hi && d.id == hi && hi !in ds
    ensures Total(ds[hi := d], v, hi + 1) == Total(ds, v, hi) + (if d.ventaId == v then d.subtotal else 0)
  {
    TotalPut(ds, v, hi + 1, d);
  }

  /** The repository: the rows and the next key the database will generate. */
  class DetalleRepository {
    var rows: map<int, Detalle>
    var nextId: int

    ghost predicate Valid()
      reads this
    {
      nextId >= 1 && forall k :: k in rows ==> 1 <= k < nextId && rows[k].id == k
    }

    /** The total of sale v over the whole table. */
    function SumFor(v: int): int
      reads this
    {
      Total(rows, v, nextId)
    }

    constructor ()
      ensures Valid() && rows == map[] && nextId == 1
    {
      rows, nextId := map[], 1;
    }

    /** save of a new entity: the row receives the next generated key. */
    method Insert(d: Detalle) returns (saved: Detalle)
      requires Valid()
      modifies this
      ensures Valid()
      ensures saved == d.(id := old(nextId))
      ensures rows == old(rows)[saved.id := saved] && nextId == old(nextId) + 1
    {
      saved := d.(id := nextId);
      rows := rows[nextId := saved];
      nextId := nextId + 1;
    }

    /** save of a loaded entity: the row under its key is overwritten. */
    method Put(d: Detalle)
      requires Valid() && d.id in rows
      modifies this
      ensures Valid()
      ensures rows == old(rows)[d.id := d] && nextId == old(nextId)
    {
      rows := rows[d.id := d];
    }

    method Delete(id: int)
      requires Valid()
      modifies this
      ensures Valid()
      ensures rows == old(rows) - {id} && nextId == old(nextId)
    {
      rows := rows - {id};
    }
  }
}
