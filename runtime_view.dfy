/** The small view of the runtime that the accumulator consults and updates:
    the current revision, the active query, the outputs recorded for it, the
    untracked-read flag and the log of events sent to the database. */
module RuntimeView {
  import opened Keys

  class Runtime {
    var currentRevision: Revision
    var activeQuery: Option<DatabaseKeyIndex>
    var outputs: seq<DependencyIndex>
    var untracked: bool
    var events: seq<Event>

    constructor (revision: Revision, active: Option<DatabaseKeyIndex>)
      ensures currentRevision == revision && activeQuery == active
      ensures outputs == [] && !untracked && events == []
    {
      currentRevision := revision;
      activeQuery := active;
      outputs := [];
      untracked := false;
      events := [];
    }

    /** Records that the active query produced `output`; only meaningful while a query is active. */
    method AddOutput(output: DependencyIndex)
      requires activeQuery.Some?
      modifies this`outputs
      ensures outputs == old(outputs) + [output]
    {
      outputs := outputs + [output];
    }

    /** Marks the reading computation as having performed a read that no edge describes. */
    method ReportUntrackedRead()
      modifies this`untracked
      ensures untracked
    {
      untracked := true;
    }

    /** Delivers a diagnostic event; the sink is an append-only log. */
    method SalsaEvent(e: Event)
      modifies this`events
      ensures events == old(events) + [e]
    {
      events := events + [e];
    }
  }
}
