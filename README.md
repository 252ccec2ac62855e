# Salsa accumulator ingredient, modelled in Dafny

Salsa is an on-demand incremental computation engine. It memoizes queries,
records the dependencies between them, and re-validates them when the
revision (its logical clock) moves on. The **accumulator** ingredient is a
side channel. While a query runs it may `push` values. Those values are kept
in a bucket keyed by the query's `DatabaseKeyIndex`, and the bucket is stamped
with the revision it was filled in. A reader gets the values back with
`produced_by`, but only while the bucket belongs to the current revision. When
the engine confirms that the query is unchanged, it moves the bucket forward
with `mark_validated_output`. When the query is about to re-run, it discards
the bucket with `remove_stale_output`.

The project:

- `keys.dfy` (module `Keys`): revisions, ingredient and key indices, query
  origins, cycle-recovery strategies, the discard event, and the fatal misuses.
  Each `panic!`/`assert!` of the source becomes a `FatalMisuse` result.
- `runtime_view.dfy` (module `RuntimeView`): the part of the runtime the
  accumulator uses, as a class. It holds the current revision, the active
  query, the recorded outputs, the untracked-read flag and an append-only
  event log.
- `buckets.dfy` (module `Buckets`): the table as a value. `Visible` is what a
  reader in a given revision sees of a bucket. `Pushed`, `Validated` and
  `Removed` give the table after each operation.
- `traces.dfy` (module `Traces`): sequences of operations within one
  revision. Lemmas cover push order, non-interference between queries,
  lazy reset, discard, carry-forward, and the invariant that no bucket is
  stamped later than the current revision.
- `accumulator.dfy` (module `Accumulator`): the ingredient as a class with
  the source's fields (`index`, and the map, called `buckets`, since `map` is
  a Dafny keyword). Its methods are written step by step like the source and
  proved against the `Buckets` functions.
- `scenarios.dfy` (module `Scenarios`): client methods that follow one query
  across revisions. They are proved from the ingredient's contracts alone.

`produced_by` reports an untracked read only when a bucket for the query
exists, whether that bucket is current or stale. Reading a query that has no
bucket reports nothing (`components/salsa-2022/src/accumulator.rs:77-81`).

## Model

| member | source | states |
|---|---|---|
| `Accumulator.AccumulatorIngredient.constructor` | components/salsa-2022/src/accumulator.rs:32-37 | a new ingredient keeps its index and starts with an empty table |
| `Accumulator.AccumulatorIngredient.CoarseDependencyIndex` | components/salsa-2022/src/accumulator.rs:39-44 | the accumulator's dependency is coarse: its own ingredient index and no key |
| `Accumulator.AccumulatorIngredient.Push` | components/salsa-2022/src/accumulator.rs:46-68 | with no active query it aborts with `AccumulateOutsideQuery`, leaving the table and outputs unchanged; otherwise the table becomes `Pushed` for the active query in the current revision, and exactly one output, the coarse dependency index, is recorded |
| `Accumulator.AccumulatorIngredient.ProducedBy` | components/salsa-2022/src/accumulator.rs:70-92 | the output is extended with the query's values in push order when its bucket belongs to the current revision, and is unchanged otherwise; the untracked flag is set exactly when a bucket exists; the table is never modified |
| `Accumulator.AccumulatorIngredient.MaybeChangedAfter` | components/salsa-2022/src/accumulator.rs:100-102 | always aborts with `DependOnAccumulator` |
| `Accumulator.AccumulatorIngredient.Strategy` | components/salsa-2022/src/accumulator.rs:104-106 | the strategy is `Panic` |
| `Accumulator.AccumulatorIngredient.Origin` | components/salsa-2022/src/accumulator.rs:108-110 | no key has an origin |
| `Accumulator.AccumulatorIngredient.MarkValidatedOutput` | components/salsa-2022/src/accumulator.rs:112-124 | it aborts with `OutputKeyPresent` exactly when an output key is given; otherwise the table becomes `Validated`: an existing bucket is re-stamped to the current revision with its values kept |
| `Accumulator.AccumulatorIngredient.RemoveStaleOutput` | components/salsa-2022/src/accumulator.rs:126-142 | it aborts with `OutputKeyPresent` exactly when a key is given, changing nothing; otherwise the executor's bucket is removed, and one `DidDiscardAccumulated(executor, CoarseDependencyIndex())` event is logged exactly when a bucket was present |
| `Accumulator.AccumulatorIngredient.ResetForNewRevision` | components/salsa-2022/src/accumulator.rs:144-146 | always aborts with `ResetAccumulator`, and it cannot change the table |
| `Accumulator.AccumulatorIngredient.SalsaStructDeleted` | components/salsa-2022/src/accumulator.rs:148-150 | always aborts with `NotADependentFn` |
| `Accumulator.ResetOnNewRevision` | components/salsa-2022/src/accumulator.rs:161-166 | the accumulator opts out of the generic reset pass |
| `Buckets.Pushed` | components/salsa-2022/src/accumulator.rs:55-67 | after a push the bucket belongs to the current revision; its values are the old values plus `v` if it was current, and exactly `[v]` if it was absent or stale; every other key is untouched |
| `Buckets.Validated` | components/salsa-2022/src/accumulator.rs:119-123 | an existing bucket gets the new stamp with unchanged values, so it reads back in full; a missing bucket stays missing; other keys are untouched |
| `Buckets.Removed` | components/salsa-2022/src/accumulator.rs:133 | the executor has no bucket afterwards and reads as empty in every revision; other keys are untouched |
| `Traces.WithinRevision` | components/salsa-2022/src/accumulator.rs:55-67 | within one revision, as long as a query's bucket is neither validated nor discarded, a reader sees its earlier view followed by exactly the values that query pushed, in order; pushes by other queries do not interfere |
| `Traces.PushOrder` | components/salsa-2022/src/accumulator.rs:61-67 | pushes `v1..vn` by one query in one revision read back as the earlier view followed by `[v1..vn]` |
| `Traces.FirstPushesOfRevision` | components/salsa-2022/src/accumulator.rs:60-64 | when the bucket is missing or from an earlier revision, the pushes of the new revision read back as exactly themselves |
| `Traces.ReadAfterDiscard` | components/salsa-2022/src/accumulator.rs:133 | after a discard, a reader sees only what the query pushed since then |
| `Traces.CarriedForward` | components/salsa-2022/src/accumulator.rs:119-123 | a query that pushed in revision `r1` and is confirmed unchanged in `r2` reads back in `r2` exactly what it had accumulated in `r1` |
| `Traces.StepKeepsStamps` | components/salsa-2022/src/accumulator.rs:55-64 | every operation stamps only with the current revision, so no bucket is stamped later than it |
| `Traces.ApplyKeepsStamps` | components/salsa-2022/src/accumulator.rs:119-123 | any sequence of operations in a revision keeps every stamp at or below that revision, and a later revision keeps the invariant |
| `Scenarios.ReRunAfterRevisionBump` | components/salsa-2022/src/accumulator.rs:46-92 | pushes of "a" and "b" in revision 1 read back as `["a","b"]`; after the bump, a re-run that pushes "c" reads back as `["c"]` |
| `Scenarios.ValidateThenDiscard` | components/salsa-2022/src/accumulator.rs:112-142 | a stale bucket reads as empty; after validation it reads in full; a discard logs exactly one event and leaves an empty read; a second discard logs nothing; a push outside any query aborts |
| `Scenarios.ReadTwice` | components/salsa-2022/src/accumulator.rs:70-92 | two reads in one revision with no push in between give identical extensions |
| `RuntimeView.Runtime.AddOutput` | components/salsa-2022/src/accumulator.rs:66 | recording an output appends it to the active query's outputs |
| `RuntimeView.Runtime.ReportUntrackedRead` | components/salsa-2022/src/accumulator.rs:81 | an untracked read sets the flag |
| `RuntimeView.Runtime.SalsaEvent` | components/salsa-2022/src/accumulator.rs:134-140 | an event is appended to the log |

## Left out

- `components/salsa-2022-macros/src/debug_with_db.rs` is not part of this model. It is a procedural macro that generates debug-formatting code, and it has no engine behaviour.
- The sharded locking of the concurrent map and the guards on its entries are not modelled. The table is one sequential map, and each operation is atomic.
- `fmt_index` is not modelled, because the source leaves it unimplemented. Formatting in general is not modelled either.
- The `Accumulator` trait and its lookup through `HasJar` are registry plumbing and are not modelled.
- Runtime internals are not modelled: the runtime id carried by events, the query stack, and the revision bump. Scenarios assign `currentRevision` directly to stand for a bump.
- `RuntimeView.Runtime.ReportUntrackedRead`: the model has one untracked flag for the whole runtime. The real runtime marks the active query's frame, if there is one.
- `RuntimeView.Runtime.AddOutput`: the model keeps one output list for the whole runtime. The real runtime records each output on the active query's frame.
- `Data: Clone` is not modelled. A Dafny value is immutable, so copying the values into the output is the same as cloning them.
- A panic becomes a returned `FatalMisuse` value, and the state is left as it was. The model does not cover unwinding, or what callers do after a panic.
