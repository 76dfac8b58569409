/**
 * Generic queries over a table held as a map from primary key to row. Primary keys are
 * generated in increasing order, so a table is also described by the bound `hi` that every
 * key lies below.
 */
module Table {
  import opened Wrappers

  /** The least key k in [lo, hi) whose row satisfies p: the row a `findOne({ where })` returns. */
  function FirstWhere<T>(rows: map<int, T>, p: T -> bool, lo: int, hi: int): (r: Option<int>)
    ensures r.Some? ==> lo <= r.value < hi && r.value in rows && p(rows[r.value])
    ensures r.Some? ==> forall k :: lo <= k < r.value && k in rows ==> !p(rows[k])
    ensures r.None? ==> forall k :: lo <= k < hi && k in rows ==> !p(rows[k])
    decreases hi - lo
  {
    if hi <= lo then None
    else if lo in rows && p(rows[lo]) then Some(lo)
    else FirstWhere(rows, p, lo + 1, hi)
  }

  /** When at most one row satisfies p, FirstWhere finds that row whenever it exists. */
  lemma FirstWhereUnique<T>(rows: map<int, T>, p: T -> bool, hi: int, k: int)
    requires forall j :: j in rows ==> 0 <= j < hi
    requires forall i, j :: i in rows && j in rows && p(rows[i]) && p(rows[j]) ==> i == j
    requires k in rows && p(rows[k])
    ensures FirstWhere(rows, p, 0, hi) == Some(k)
  {
  }

  /** Every key in [lo, hi), highest first: `ORDER BY id DESC`. */
  function KeysDescending<T>(rows: map<int, T>, lo: int, hi: int): (ks: seq<int>)
    ensures forall i :: 0 <= i < |ks| ==> lo <= ks[i] < hi && ks[i] in rows
    ensures forall k :: lo <= k < hi && k in rows ==> k in ks
    ensures forall i, j :: 0 <= i < j < |ks| ==> ks[i] > ks[j]
    decreases hi - lo
  {
    if hi <= lo then []
    else
      var rest := KeysDescending(rows, lo, hi - 1);
      if hi - 1 in rows then
        var ks := [hi - 1] + rest;
        assert forall i :: 0 < i < |ks| ==> ks[i] == rest[i - 1];
        ks
      else rest
  }
}
