/** Clients of the accumulator that follow one computation across revisions,
    proved from the contracts of the ingredient's operations alone. */
module Scenarios {
  import opened Keys
  import opened RuntimeView
  import opened Accumulator

  /** Computation Q pushes "a" and "b" in revision 1 and reads them back. An
      input Q depends on changes; in revision 2 Q re-runs and pushes only "c",
      and the read shows ["c"], not ["a", "b", "c"]. */
  method ReRunAfterRevisionBump() returns (first: seq<string>, second: seq<string>)
    ensures first == ["a", "b"]
    ensures second == ["c"]
  {
    var q := DatabaseKey(0, 7);
    var runtime := new Runtime(1, Some(q));
    var accumulator := new AccumulatorIngredient<string>(3);
    var r := accumulator.Push(runtime, "a");
    r := accumulator.Push(runtime, "b");
    first := accumulator.ProducedBy(runtime, q, []);
    runtime.currentRevision := 2;
    r := accumulator.Push(runtime, "c");
    second := accumulator.ProducedBy(runtime, q, []);
  }

  /** Q pushes "a" in revision 1. In revision 2 its bucket is stale and reads as
      empty until Q is confirmed unchanged, after which "a" is readable again.
      In revision 3 Q is confirmed stale: its bucket is discarded with one
      event, a second discard sends none, and the read is empty. A push with
      no active query aborts. */
  method ValidateThenDiscard() returns (stale: seq<string>, carried: seq<string>, discarded: seq<string>,
                                        events: seq<Event>, outside: Result<()>)
    ensures stale == [] && carried == ["a"] && discarded == []
    ensures events == [DidDiscardAccumulated(DatabaseKey(0, 7), Dependency(3, None))]
    ensures outside == FatalMisuse(AccumulateOutsideQuery)
  {
    var q := DatabaseKey(0, 7);
    var runtime := new Runtime(1, Some(q));
    var accumulator := new AccumulatorIngredient<string>(3);
    var r := accumulator.Push(runtime, "a");
    runtime.currentRevision := 2;
    stale := accumulator.ProducedBy(runtime, q, []);
    r := accumulator.MarkValidatedOutput(runtime, q, None);
    carried := accumulator.ProducedBy(runtime, q, []);
    runtime.currentRevision := 3;
    r := accumulator.RemoveStaleOutput(runtime, q, None);
    r := accumulator.RemoveStaleOutput(runtime, q, None);
    discarded := accumulator.ProducedBy(runtime, q, []);
    events := runtime.events;
    runtime.activeQuery := None;
    outside := accumulator.Push(runtime, "x");
  }

  /** Reading a computation's values twice in one revision, with no push in
      between, extends the two outputs identically. */
  method ReadTwice<Data>(accumulator: AccumulatorIngredient<Data>, runtime: Runtime, q: DatabaseKeyIndex, output: seq<Data>)
    returns (first: seq<Data>, second: seq<Data>)
    modifies runtime`untracked
    ensures first == second
  {
    first := accumulator.ProducedBy(runtime, q, output);
    second := accumulator.ProducedBy(runtime, q, output);
  }
}
