/** Sequences of accumulator operations issued within one revision, and what a
    reader sees of one computation's bucket after them. */
module Traces {
  import opened Keys
  import opened Buckets

  /** One operation on the accumulator's table. */
  datatype Op<Data> =
    | Push(query: DatabaseKeyIndex, value: Data)
    | MarkValidated(executor: DatabaseKeyIndex)
    | RemoveStale(executor: DatabaseKeyIndex)

  function Step<Data>(m: Table<Data>, rev: Revision, op: Op<Data>): Table<Data>
  {
    match op
    case Push(q, v) => Pushed(m, rev, q, v)
    case MarkValidated(e) => Validated(m, rev, e)
    case RemoveStale(e) => Removed(m, e)
  }

  /** The table after running `ops` in order, all in revision `rev`. */
  function Apply<Data>(m: Table<Data>, rev: Revision, ops: seq<Op<Data>>): Table<Data>
    decreases |ops|
  {
    if ops == [] then m else Apply(Step(m, rev, ops[0]), rev, ops[1..])
  }

  /** The values `q` pushes in `ops`, in the order it pushes them. */
  function PushedBy<Data>(q: DatabaseKeyIndex, ops: seq<Op<Data>>): seq<Data>
    decreases |ops|
  {
    if ops == [] then []
    else (if ops[0].Push? && ops[0].query == q then [ops[0].value] else []) + PushedBy(q, ops[1..])
  }

  /** `ops` neither validates nor discards `q`'s bucket (other computations may). */
  ghost predicate LeavesAlone<Data>(q: DatabaseKeyIndex, ops: seq<Op<Data>>)
  {
    forall i :: 0 <= i < |ops| ==> ops[i].Push? || ops[i].executor != q
  }

  /** `q` pushing each of `vs` in turn. */
  function Pushes<Data>(q: DatabaseKeyIndex, vs: seq<Data>): seq<Op<Data>>
  {
    seq(|vs|, i requires 0 <= i < |vs| => Push(q, vs[i]))
  }

  lemma {:induction false} ApplyConcat<Data>(m: Table<Data>, rev: Revision, a: seq<Op<Data>>, b: seq<Op<Data>>)
    ensures Apply(m, rev, a + b) == Apply(Apply(m, rev, a), rev, b)
    decreases |a|
  {
    if a != [] {
      var m' := Step(m, rev, a[0]);
      assert a + b != [] && (a + b)[0] == a[0] && (a + b)[1..] == a[1..] + b;
      assert Apply(m, rev, a + b) == Apply(m', rev, a[1..] + b);
      assert Apply(m, rev, a) == Apply(m', rev, a[1..]);
      ApplyConcat(m', rev, a[1..], b);
    } else {
      assert a + b == b;
    }
  }

  lemma {:induction false} PushedByOfPushes<Data>(q: DatabaseKeyIndex, vs: seq<Data>)
    ensures PushedBy(q, Pushes(q, vs)) == vs
    decreases |vs|
  {
    if vs != [] {
      assert Pushes(q, vs)[1..] == Pushes(q, vs[1..]);
      PushedByOfPushes(q, vs[1..]);
      assert [vs[0]] + vs[1..] == vs;
    }
  }

  /** Within a revision, and as long as nobody validates or discards `q`'s
      bucket, the reader sees what it saw before followed by exactly the values
      `q` pushed, in push order; pushes by other computations do not interfere. */
  lemma {:induction false} WithinRevision<Data>(m: Table<Data>, rev: Revision, q: DatabaseKeyIndex, ops: seq<Op<Data>>)
    requires LeavesAlone(q, ops)
    ensures Visible(Apply(m, rev, ops), rev, q) == Visible(m, rev, q) + PushedBy(q, ops)
    decreases |ops|
  {
    if ops != [] {
      var m' := Step(m, rev, ops[0]);
      assert LeavesAlone(q, ops[1..]) by {
        forall i | 0 <= i < |ops| - 1 ensures ops[1..][i].Push? || ops[1..][i].executor != q {
          assert ops[1..][i] == ops[i + 1];
        }
      }
      WithinRevision(m', rev, q, ops[1..]);
      match ops[0]
      case Push(k, v) =>
        if k != q { assert SameAt(m, m', q); }
      case MarkValidated(e) =>
        assert e != q;
        assert SameAt(m, m', q);
      case RemoveStale(e) =>
        assert e != q;
        assert SameAt(m, m', q);
    }
  }

  /** Pushes `v1, ..., vn` by one computation in one revision are read back as
      exactly `[v1, ..., vn]` after whatever that revision had already shown. */
  lemma PushOrder<Data>(m: Table<Data>, rev: Revision, q: DatabaseKeyIndex, vs: seq<Data>)
    ensures Visible(Apply(m, rev, Pushes(q, vs)), rev, q) == Visible(m, rev, q) + vs
  {
    WithinRevision(m, rev, q, Pushes(q, vs));
    PushedByOfPushes(q, vs);
  }

  /** The first pushes of a revision start from an empty bucket: values from an
      earlier revision never leak into the new one. */
  lemma FirstPushesOfRevision<Data>(m: Table<Data>, rev: Revision, q: DatabaseKeyIndex, vs: seq<Data>)
    requires q !in m || m[q].producedAt != rev
    ensures Visible(Apply(m, rev, Pushes(q, vs)), rev, q) == vs
  {
    PushOrder(m, rev, q, vs);
  }

  /** After `q`'s bucket is discarded, a reader sees only what `q` pushed since. */
  lemma ReadAfterDiscard<Data>(m: Table<Data>, rev: Revision, q: DatabaseKeyIndex, before: seq<Op<Data>>, after: seq<Op<Data>>)
    requires LeavesAlone(q, after)
    ensures Visible(Apply(m, rev, before + [RemoveStale(q)] + after), rev, q) == PushedBy(q, after)
  {
    ApplyConcat(m, rev, before + [RemoveStale(q)], after);
    ApplyConcat(m, rev, before, [RemoveStale(q)]);
    var gone := Apply(m, rev, before + [RemoveStale(q)]);
    assert gone == Removed(Apply(m, rev, before), q);
    WithinRevision(gone, rev, q, after);
  }

  /** A computation that pushed something in revision `r1` and is confirmed
      unchanged in revision `r2` keeps exactly its bucket from `r1`, now readable in `r2`. */
  lemma CarriedForward<Data>(m: Table<Data>, r1: Revision, r2: Revision, q: DatabaseKeyIndex, ops: seq<Op<Data>>)
    requires LeavesAlone(q, ops)
    requires PushedBy(q, ops) != []
    ensures Visible(Validated(Apply(m, r1, ops), r2, q), r2, q) == Visible(m, r1, q) + PushedBy(q, ops)
  {
    WithinRevision(m, r1, q, ops);
  }

  /** Every operation stamps with the current revision, so none creates a bucket from the future. */
  lemma StepKeepsStamps<Data>(m: Table<Data>, rev: Revision, op: Op<Data>)
    requires NoFutureBuckets(m, rev)
    ensures NoFutureBuckets(Step(m, rev, op), rev)
  {
  }

  /** Running any operations in the current revision keeps every stamp at or
      below it, and so does moving on to a later revision. */
  lemma {:induction false} ApplyKeepsStamps<Data>(m: Table<Data>, rev: Revision, ops: seq<Op<Data>>, later: Revision)
    requires NoFutureBuckets(m, rev)
    requires rev <= later
    ensures NoFutureBuckets(Apply(m, rev, ops), rev)
    ensures NoFutureBuckets(Apply(m, rev, ops), later)
    decreases |ops|
  {
    if ops != [] {
      StepKeepsStamps(m, rev, ops[0]);
      ApplyKeepsStamps(Step(m, rev, ops[0]), rev, ops[1..], later);
    }
  }
}
