/** The accumulator ingredient: a side-channel store of the values each
    computation pushes while it runs, readable in the revision they were pushed
    in, carried forward when the computation is confirmed unchanged and
    discarded when it is about to re-run. */
module Accumulator {
  import opened Keys
  import opened Buckets
  import opened RuntimeView

  /** The generic reset pass leaves accumulators alone: they are reset lazily, by the next push. */
  function ResetOnNewRevision(): (reset: bool)
    ensures !reset
  {
    false
  }

  class AccumulatorIngredient<Data> {
    const index: IngredientIndex
    var buckets: Table<Data>

    constructor (index: IngredientIndex)
      ensures this.index == index && buckets == map[]
    {
      this.index := index;
      buckets := map[];
    }

    /** The coarse dependency that stands for "accumulated something here":
        the whole ingredient, no particular entry. */
    function CoarseDependencyIndex(): (d: DependencyIndex)
      ensures d.ingredientIndex == index && d.keyIndex.None?
    {
      Dependency(index, None)
    }

    /** Appends `value` to the active query's bucket, first emptying a bucket
        left over from an earlier revision, and records the accumulator as an
        output of the active query. Without an active query it aborts and
        changes nothing. */
    method Push(runtime: Runtime, value: Data) returns (r: Result<()>)
      modifies this, runtime`outputs
      ensures runtime.activeQuery.None? <==> r.FatalMisuse?
      ensures r.FatalMisuse? ==> r.misuse == AccumulateOutsideQuery
      ensures r.FatalMisuse? ==> buckets == old(buckets) && runtime.outputs == old(runtime.outputs)
      ensures r.Ok? ==> buckets == Pushed(old(buckets), runtime.currentRevision, runtime.activeQuery.value, value)
      ensures r.Ok? ==> runtime.outputs == old(runtime.outputs) + [CoarseDependencyIndex()]
    {
      var currentRevision := runtime.currentRevision;
      if runtime.activeQuery.None? {
        return FatalMisuse(AccumulateOutsideQuery);
      }
      var activeQuery := runtime.activeQuery.value;
      if activeQuery !in buckets {
        buckets := buckets[activeQuery := AccumulatedValues(currentRevision, [])];
      }
      var accumulated := buckets[activeQuery];
      // The first push in a new revision empties the bucket.
      if accumulated.producedAt != currentRevision {
        accumulated := accumulated.(values := accumulated.values[..0], producedAt := currentRevision);
      }
      runtime.AddOutput(CoarseDependencyIndex());
      accumulated := accumulated.(values := accumulated.values + [value]);
      buckets := buckets[activeQuery := accumulated];
      return Ok(());
    }

    /** Extends `output` with the values `query` pushed in the current revision,
        in push order; a stale or missing bucket contributes nothing. Reading an
        existing bucket is reported as an untracked read. The table is not changed. */
    method ProducedBy(runtime: Runtime, query: DatabaseKeyIndex, output: seq<Data>) returns (extended: seq<Data>)
      modifies runtime`untracked
      ensures extended == output + Visible(buckets, runtime.currentRevision, query)
      ensures query in buckets && buckets[query].producedAt == runtime.currentRevision ==>
                extended == output + buckets[query].values
      ensures !(query in buckets && buckets[query].producedAt == runtime.currentRevision) ==> extended == output
      ensures runtime.untracked == (old(runtime.untracked) || query in buckets)
    {
      var currentRevision := runtime.currentRevision;
      extended := output;
      if query in buckets {
        runtime.ReportUntrackedRead();
        var v := buckets[query];
        if v.producedAt == currentRevision {
          extended := extended + v.values;
        }
      }
    }

    /** Nothing may depend on an accumulator directly: asking whether it changed aborts. */
    function MaybeChangedAfter(input: DependencyIndex, revision: Revision): (r: Result<bool>)
      ensures r == FatalMisuse(DependOnAccumulator)
    {
      FatalMisuse(DependOnAccumulator)
    }

    /** A cyclic use of an accumulator is fatal. */
    function Strategy(): (s: CycleRecoveryStrategy)
      ensures s == Panic
    {
      Panic
    }

    /** Accumulators are not memoized queries, so no entry has an origin. */
    function Origin(keyIndex: Id): (o: Option<QueryOrigin>)
      ensures o == None
    {
      None
    }

    /** The executor is confirmed unchanged: its bucket, if any, is re-stamped
        to the current revision with its values kept. A concrete output key is
        a fatal misuse. */
    method MarkValidatedOutput(runtime: Runtime, executor: DatabaseKeyIndex, outputKey: Option<Id>) returns (r: Result<()>)
      modifies this
      ensures r.FatalMisuse? <==> outputKey.Some?
      ensures r.FatalMisuse? ==> r.misuse == OutputKeyPresent && buckets == old(buckets)
      ensures r.Ok? ==> buckets == Validated(old(buckets), runtime.currentRevision, executor)
    {
      if outputKey.Some? {
        return FatalMisuse(OutputKeyPresent);
      }
      var currentRevision := runtime.currentRevision;
      if executor in buckets {
        // The values are still valid in the new revision.
        buckets := buckets[executor := buckets[executor].(producedAt := currentRevision)];
      }
      return Ok(());
    }

    /** The executor is about to re-run: its bucket is dropped, and exactly
        when there was one, a discard event is sent. A concrete output key is a
        fatal misuse. */
    method RemoveStaleOutput(runtime: Runtime, executor: DatabaseKeyIndex, staleOutputKey: Option<Id>) returns (r: Result<()>)
      modifies this, runtime`events
      ensures r.FatalMisuse? <==> staleOutputKey.Some?
      ensures r.FatalMisuse? ==> r.misuse == OutputKeyPresent
      ensures r.FatalMisuse? ==> buckets == old(buckets) && runtime.events == old(runtime.events)
      ensures r.Ok? ==> buckets == Removed(old(buckets), executor)
      ensures r.Ok? && executor in old(buckets) ==>
                runtime.events == old(runtime.events) + [DidDiscardAccumulated(executor, CoarseDependencyIndex())]
      ensures r.Ok? && executor !in old(buckets) ==> runtime.events == old(runtime.events)
    {
      if staleOutputKey.Some? {
        return FatalMisuse(OutputKeyPresent);
      }
      if executor in buckets {
        buckets := buckets - {executor};
        runtime.SalsaEvent(DidDiscardAccumulated(executor, CoarseDependencyIndex()));
      }
      return Ok(());
    }

    /** Accumulators are reset lazily; an eager reset is a fatal misuse and changes nothing. */
    method ResetForNewRevision() returns (r: Result<()>)
      ensures r == FatalMisuse(ResetAccumulator)
    {
      return FatalMisuse(ResetAccumulator);
    }

    /** Accumulators are not registered as dependent functions of a tracked
        struct; telling one that a struct was deleted is a fatal misuse. */
    method SalsaStructDeleted(runtime: Runtime, id: Id) returns (r: Result<()>)
      ensures r == FatalMisuse(NotADependentFn)
    {
      return FatalMisuse(NotADependentFn);
    }
  }
}
