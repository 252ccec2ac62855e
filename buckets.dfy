/** The accumulator's table as a value: a map from the key of the computation
    that produced some values to its bucket, and the effect of each operation on
    it. The class in module Accumulator is proved against these functions. */
module Buckets {
  import opened Keys

  /** The values one computation accumulated, stamped with the revision they belong to. */
  datatype AccumulatedValues<Data> = AccumulatedValues(producedAt: Revision, values: seq<Data>)

  type Table<Data> = map<DatabaseKeyIndex, AccumulatedValues<Data>>

  /** Key `k` is absent from both tables or has the same bucket in both. */
  ghost predicate SameAt<Data>(m: Table<Data>, m': Table<Data>, k: DatabaseKeyIndex)
  {
    (k in m <==> k in m') && (k in m ==> m[k] == m'[k])
  }

  /** What a reader in revision `rev` sees of `q`'s bucket: its values when the
      bucket belongs to `rev`, nothing when it is absent or stale. */
  function Visible<Data>(m: Table<Data>, rev: Revision, q: DatabaseKeyIndex): seq<Data>
  {
    if q in m && m[q].producedAt == rev then m[q].values else []
  }

  /** The table after the active query `q` pushes `v` in revision `rev`. */
  function Pushed<Data>(m: Table<Data>, rev: Revision, q: DatabaseKeyIndex, v: Data): (r: Table<Data>)
    ensures q in r && r[q].producedAt == rev
    ensures Visible(r, rev, q) == Visible(m, rev, q) + [v]
    ensures q in m && m[q].producedAt == rev ==> r[q].values == m[q].values + [v]
    ensures !(q in m && m[q].producedAt == rev) ==> r[q].values == [v]
    ensures forall k :: k != q ==> SameAt(m, r, k)
  {
    m[q := AccumulatedValues(rev, Visible(m, rev, q) + [v])]
  }

  /** The table after executor `e` is confirmed unchanged in revision `rev`. */
  function Validated<Data>(m: Table<Data>, rev: Revision, e: DatabaseKeyIndex): (r: Table<Data>)
    ensures e in r <==> e in m
    ensures e in m ==> r[e].producedAt == rev && r[e].values == m[e].values
    ensures e in m ==> Visible(r, rev, e) == m[e].values
    ensures e !in m ==> r == m
    ensures forall k :: k != e ==> SameAt(m, r, k)
  {
    if e in m then m[e := m[e].(producedAt := rev)] else m
  }

  /** The table after executor `e`'s bucket is discarded. */
  function Removed<Data>(m: Table<Data>, e: DatabaseKeyIndex): (r: Table<Data>)
    ensures e !in r
    ensures forall rev :: Visible(r, rev, e) == []
    ensures forall k :: k != e ==> SameAt(m, r, k)
  {
    m - {e}
  }

  /** No bucket is stamped later than `rev`: "stale" then means "older than `rev`". */
  ghost predicate NoFutureBuckets<Data>(m: Table<Data>, rev: Revision)
  {
    forall k :: k in m ==> m[k].producedAt <= rev
  }
}
