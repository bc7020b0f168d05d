/** Shared vocabulary: results, 64-bit integers as the database and Go know them, and sums. */
module Base {

  datatype Option<+T> = None | Some(value: T)

  datatype Result<+T, +E> = Ok(value: T) | Err(error: E)

  /** Row identifiers. A UUID is represented by its number, so equal rows have equal ids. */
  type Id = nat

  const MAX_INT64: int := 0x7FFF_FFFF_FFFF_FFFF
  const MIN_INT64: int := -0x8000_0000_0000_0000
  const TWO_64: int := 0x1_0000_0000_0000_0000

  /** BIGINT in the schema, int64 in Go. */
  type int64 = x: int | MIN_INT64 <= x <= MAX_INT64

  predicate IsInt64(x: int) {
    MIN_INT64 <= x <= MAX_INT64
  }

  /** Two's complement reduction: what Go's int64 addition leaves of the true sum. */
  function Wrap(x: int): (r: int64)
    ensures (r - x) % TWO_64 == 0
    ensures IsInt64(x) ==> r == x
  {
    var m := x % TWO_64;
    if m <= MAX_INT64 then m else m - TWO_64
  }

  /** The sum of f over the rows of a table. */
  ghost function MapSum<V>(m: map<Id, V>, f: V -> int): int
    decreases m.Keys
  {
    if m == map[] then 0
    else
      var k :| k in m;
      f(m[k]) + MapSum(m - {k}, f)
  }

  /** Any row can be taken out of the sum first. */
  lemma {:induction false} MapSumRemove<V>(m: map<Id, V>, f: V -> int, k: Id)
    requires k in m
    ensures MapSum(m, f) == f(m[k]) + MapSum(m - {k}, f)
    decreases m.Keys
  {
    var j :| j in m && MapSum(m, f) == f(m[j]) + MapSum(m - {j}, f);
    if j != k {
      MapSumRemove(m - {j}, f, k);
      MapSumRemove(m - {k}, f, j);
      assert m - {j} - {k} == m - {k} - {j};
    }
  }

  /** Replacing a row changes the sum by the difference; inserting one adds its value. */
  lemma MapSumPut<V>(m: map<Id, V>, f: V -> int, k: Id, v: V)
    ensures MapSum(m[k := v], f) == MapSum(m, f) + f(v) - if k in m then f(m[k]) else 0
  {
    MapSumRemove(m[k := v], f, k);
    if k in m {
      MapSumRemove(m, f, k);
      assert m[k := v] - {k} == m - {k};
    } else {
      assert m[k := v] - {k} == m;
    }
  }
}
