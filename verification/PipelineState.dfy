/** Compare-and-set status changes of sessions and task logs, with their audit trail. */
module PipelineState {
  import opened Outcomes

  /** Status literals are stored as strings; both machines share `Success` and `Failed`. */
  datatype Status =
    | Open | Sealed | Analyzing | Partial | Success | Failed
    | Pending | Running | Skipped | Timeout | Cancelled

  datatype Aggregate = VideoSession(id: int) | TaskLog(id: int)

  const SESSION_ALLOWED_TRANSITIONS: set<(Status, Status)> :=
    {(Open, Sealed), (Open, Failed), (Sealed, Analyzing), (Partial, Analyzing),
     (Analyzing, Sealed), (Analyzing, Partial), (Analyzing, Success), (Analyzing, Failed),
     (Partial, Sealed), (Failed, Sealed), (Success, Sealed)}

  const TASK_LOG_ALLOWED_TRANSITIONS: set<(Status, Status)> :=
    {(Pending, Running), (Pending, Cancelled),
     (Running, Success), (Running, Skipped), (Running, Failed), (Running, Timeout), (Running, Cancelled)}

  predicate Allowed(aggregate: Aggregate, before: Status, after: Status) {
    (before, after) in if aggregate.VideoSession? then SESSION_ALLOWED_TRANSITIONS else TASK_LOG_ALLOWED_TRANSITIONS
  }

  datatype AuditRow = AuditRow(
    aggregate: Aggregate, before: Status, after: Status, reason: string, source: string, taskLogId: Option<int>)

  /** The `transition` entry of a task log's `detail_json`. */
  datatype Note = Note(before: Status, after: Status, reason: string, source: string)

  datatype TransitionError = Conflict | SourceRequired

  /** The driving task log, as the caller has it in memory. */
  datatype Driver = Driver(taskLogId: int, cancelRequested: bool)

  /** One call. `firstRead` is what the task-log read before the UPDATE returned; it may be
      stale, and so may `before`. */
  datatype Call =
    | SessionCall(sessionId: int, before: Status, after: Status, reason: string, source: string,
                  driver: Option<Driver>, force: bool)
    | TaskCall(taskLogId: int, before: Status, after: Status, reason: string, source: string,
               firstRead: Option<Status>)

  /** What one database transaction sees and has written. */
  datatype View = View(statuses: map<Aggregate, Status>, notes: map<int, Note>, rows: seq<AuditRow>)

  // ---------------------------------------------------------------------------
  // One call as a function
  // ---------------------------------------------------------------------------

  function Target(call: Call): Aggregate {
    if call.SessionCall? then VideoSession(call.sessionId) else TaskLog(call.taskLogId)
  }

  predicate Legal(call: Call) {
    Allowed(Target(call), call.before, call.after)
  }

  /** The ways a call gives up before it issues its UPDATE. */
  predicate GivesUp(call: Call) {
    if call.SessionCall? then !call.force && call.driver.Some? && call.driver.value.cancelRequested
    else call.firstRead != Some(call.before)
  }

  /** The UPDATE matches a row. */
  predicate Wins(statuses: map<Aggregate, Status>, call: Call) {
    && Legal(call) && !GivesUp(call)
    && Target(call) in statuses && statuses[Target(call)] == call.before
  }

  function DriverId(call: Call): Option<int> {
    if call.TaskCall? then Some(call.taskLogId)
    else if call.driver.Some? then Some(call.driver.value.taskLogId)
    else None
  }

  function RowOf(call: Call): AuditRow {
    AuditRow(Target(call), call.before, call.after, call.reason, call.source, DriverId(call))
  }

  function NoteOf(call: Call): Note {
    Note(call.before, call.after, call.reason, call.source)
  }

  function Reply(statuses: map<Aggregate, Status>, call: Call): Result<bool, TransitionError> {
    if !Legal(call) then Err(Conflict)
    else if !Wins(statuses, call) then Ok(false)
    else if call.source == "" then Err(SourceRequired)
    else Ok(true)
  }

  /** An empty source raises only after the UPDATE and the note are written. */
  function Moved(view: View, call: Call): View {
    if !Wins(view.statuses, call) then view
    else View(
      view.statuses[Target(call) := call.after],
      if DriverId(call).Some? then view.notes[DriverId(call).value := NoteOf(call)] else view.notes,
      if call.source == "" then view.rows else view.rows + [RowOf(call)])
  }

  /** A call changes anything exactly when its UPDATE wins: an illegal request, a stale source
      status, a missing row and an unforced cancel all leave everything as it was. */
  lemma ChangesIffWins(view: View, call: Call)
    ensures Moved(view, call) == view <==> !Wins(view.statuses, call)
    ensures Reply(view.statuses, call) == Ok(true) <==> Wins(view.statuses, call) && call.source != ""
    ensures Reply(view.statuses, call).Ok? || Reply(view.statuses, call).error == Conflict ==>
      (Reply(view.statuses, call) == Ok(true) <==> Moved(view, call) != view)
  {
  }

  /** When a session call changes anything, and to what: the move must be a row of the table, the
      session must be in the source status, and a requested cancel of the driving task log stops
      the call unless it is forced. */
  lemma SessionCallDecides(
    view: View, id: int, before: Status, after: Status, reason: string, source: string, driver: Option<Driver>, force: bool)
    ensures var call, a := SessionCall(id, before, after, reason, source, driver, force), VideoSession(id);
      var legal := (before, after) in SESSION_ALLOWED_TRANSITIONS;
      var stopped := !force && driver.Some? && driver.value.cancelRequested;
      var moves := legal && a in view.statuses && view.statuses[a] == before && !stopped;
      && (Moved(view, call) != view <==> moves)
      && Moved(view, call).statuses == (if moves then view.statuses[a := after] else view.statuses)
      && Reply(view.statuses, call)
           == (if !legal then Err(Conflict) else if !moves then Ok(false)
               else if source == "" then Err(SourceRequired) else Ok(true))
  {
    TablesMove();
  }

  /** The same for a task log, whose first read must have returned the source status. */
  lemma TaskCallDecides(
    view: View, id: int, before: Status, after: Status, reason: string, source: string, firstRead: Option<Status>)
    ensures var call, a := TaskCall(id, before, after, reason, source, firstRead), TaskLog(id);
      var legal := (before, after) in TASK_LOG_ALLOWED_TRANSITIONS;
      var moves := legal && firstRead == Some(before) && a in view.statuses && view.statuses[a] == before;
      && (Moved(view, call) != view <==> moves)
      && Moved(view, call).statuses == (if moves then view.statuses[a := after] else view.statuses)
      && Reply(view.statuses, call)
           == (if !legal then Err(Conflict) else if !moves then Ok(false)
               else if source == "" then Err(SourceRequired) else Ok(true))
  {
    TablesMove();
  }

  /** The two tables by targets: from where each status can be reached. */
  lemma SourcesOf(aggregate: Aggregate, before: Status, after: Status)
    ensures Allowed(aggregate, before, after) <==>
      if aggregate.VideoSession? then
        match after
        case Sealed => before in {Open, Analyzing, Partial, Failed, Success}
        case Analyzing => before == Sealed || before == Partial
        case Partial => before == Analyzing
        case Success => before == Analyzing
        case Failed => before == Open || before == Analyzing
        case _ => false
      else
        match after
        case Running => before == Pending
        case Cancelled => before == Pending || before == Running
        case Success => before == Running
        case Skipped => before == Running
        case Failed => before == Running
        case Timeout => before == Running
        case _ => false
  {
  }

  lemma TablesMove()
    ensures forall a, x, y :: Allowed(a, x, y) ==> x != y
  {
  }

  /** An applied call leaves the same record twice: in the audit, and on the driving task log,
      whose id the audit row carries. No other note changes. */
  lemma NoteAgreesWithAudit(view: View, call: Call)
    requires Reply(view.statuses, call) == Ok(true)
    ensures var view' := Moved(view, call);
      && |view'.rows| == |view.rows| + 1 && view.rows <= view'.rows
      && var row := view'.rows[|view.rows|];
      && row.aggregate == Target(call) && row.after == view'.statuses[Target(call)] && row.source != ""
      && row.before == view.statuses[Target(call)]
      && (row.taskLogId.Some? ==>
            && row.taskLogId.value in view'.notes
            && view'.notes[row.taskLogId.value] == Note(row.before, row.after, row.reason, row.source))
      && (forall id :: id in view.notes && Some(id) != row.taskLogId ==> id in view'.notes && view'.notes[id] == view.notes[id])
  {
  }

  /** Of two racing calls with the same source status, only the first can win. */
  lemma OneWinner(view: View, first: Call, second: Call)
    requires Wins(view.statuses, first)
    requires Target(first) == Target(second) && first.before == second.before
    ensures !Wins(Moved(view, first).statuses, second)
  {
  }

  // ---------------------------------------------------------------------------
  // The two operations, statement by statement
  // ---------------------------------------------------------------------------

  class PipelineTransaction {
    var statuses: map<Aggregate, Status>
    var notes: map<int, Note>
    var rows: seq<AuditRow>

    constructor (statuses: map<Aggregate, Status>, notes: map<int, Note>)
      ensures Contents() == View(statuses, notes, [])
    {
      this.statuses, this.notes, this.rows := statuses, notes, [];
    }

    function Contents(): View
      reads this
    {
      View(statuses, notes, rows)
    }

    /** `UPDATE ... SET status = after WHERE id = ... AND status = before` */
    method CompareAndSet(aggregate: Aggregate, before: Status, after: Status) returns (updated: bool)
      modifies this`statuses
      ensures updated <==> aggregate in old(statuses) && old(statuses)[aggregate] == before
      ensures statuses == if updated then old(statuses)[aggregate := after] else old(statuses)
    {
      updated := aggregate in statuses && statuses[aggregate] == before;
      if updated {
        statuses := statuses[aggregate := after];
      }
    }

    method RecordAudit(row: AuditRow) returns (r: Result<(), TransitionError>)
      modifies this`rows
      ensures r == if row.source == "" then Err(SourceRequired) else Ok(())
      ensures rows == if row.source == "" then old(rows) else old(rows) + [row]
    {
      if row.source == "" {
        return Err(SourceRequired);
      }
      rows := rows + [row];
      return Ok(());
    }

    method TransitionSession(
      sessionId: int, before: Status, after: Status, reason: string, source: string,
      driver: Option<Driver>, force: bool)
      returns (r: Result<bool, TransitionError>)
      modifies this
      ensures var call := SessionCall(sessionId, before, after, reason, source, driver, force);
        r == Reply(old(statuses), call) && Contents() == Moved(old(Contents()), call)
    {
      hide Allowed;
      if !Allowed(VideoSession(sessionId), before, after) {
        return Err(Conflict);
      }
      if !force && driver.Some? && driver.value.cancelRequested {
        return Ok(false);
      }
      var updated := CompareAndSet(VideoSession(sessionId), before, after);
      if !updated {
        return Ok(false);
      }
      var taskLogId := None;
      if driver.Some? {
        taskLogId := Some(driver.value.taskLogId);
        notes := notes[driver.value.taskLogId := Note(before, after, reason, source)];
      }
      var recorded := RecordAudit(AuditRow(VideoSession(sessionId), before, after, reason, source, taskLogId));
      return if recorded.Err? then Err(recorded.error) else Ok(true);
    }

    method TransitionTaskLog(
      taskLogId: int, before: Status, after: Status, reason: string, source: string, firstRead: Option<Status>)
      returns (r: Result<bool, TransitionError>)
      modifies this
      ensures var call := TaskCall(taskLogId, before, after, reason, source, firstRead);
        r == Reply(old(statuses), call) && Contents() == Moved(old(Contents()), call)
    {
      hide Allowed;
      if !Allowed(TaskLog(taskLogId), before, after) {
        return Err(Conflict);
      }
      if firstRead.None? || firstRead.value != before {
        return Ok(false);
      }
      var updated := CompareAndSet(TaskLog(taskLogId), before, after);
      if !updated {
        return Ok(false);
      }
      notes := notes[taskLogId := Note(before, after, reason, source)];
      var recorded := RecordAudit(AuditRow(TaskLog(taskLogId), before, after, reason, source, Some(taskLogId)));
      return if recorded.Err? then Err(recorded.error) else Ok(true);
    }
  }

  // ---------------------------------------------------------------------------
  // Replaying the audit
  // ---------------------------------------------------------------------------

  /** The status that an aggregate has after the audit rows of `log`. */
  function Replay(start: Status, log: seq<AuditRow>, aggregate: Aggregate): Status {
    if log == [] then start
    else
      var last := log[|log| - 1];
      if last.aggregate == aggregate then last.after else Replay(start, log[..|log| - 1], aggregate)
  }

  /** The aggregate's rows form a path of allowed moves, each starting where the last ended. */
  predicate Unbroken(start: Status, log: seq<AuditRow>, aggregate: Aggregate) {
    log == [] ||
    var init, last := log[..|log| - 1], log[|log| - 1];
    && Unbroken(start, init, aggregate)
    && (last.aggregate == aggregate ==>
          last.before == Replay(start, init, aggregate) && Allowed(aggregate, last.before, last.after))
  }

  /** `log` explains how the aggregate got from `start` to `end`. */
  predicate Explains(start: Status, log: seq<AuditRow>, aggregate: Aggregate, end: Status) {
    Unbroken(start, log, aggregate) && Replay(start, log, aggregate) == end
  }

  lemma {:induction false} ExplanationsCompose(
    start: Status, a: seq<AuditRow>, middle: Status, b: seq<AuditRow>, end: Status, aggregate: Aggregate)
    requires Explains(start, a, aggregate, middle) && Explains(middle, b, aggregate, end)
    ensures Explains(start, a + b, aggregate, end)
  {
    if b == [] {
      assert a + b == a;
    } else {
      var init := b[..|b| - 1];
      ExplanationsCompose(start, a, middle, init, Replay(middle, init, aggregate), aggregate);
      assert (a + b)[..|a + b| - 1] == a + init;
    }
  }

  lemma {:induction false} SilentLogExplainsStay(start: Status, log: seq<AuditRow>, aggregate: Aggregate)
    requires forall i :: 0 <= i < |log| ==> log[i].aggregate != aggregate
    ensures Explains(start, log, aggregate, start)
  {
    if log != [] {
      SilentLogExplainsStay(start, log[..|log| - 1], aggregate);
    }
  }

  lemma RowExtends(start: Status, log: seq<AuditRow>, row: AuditRow, aggregate: Aggregate, end: Status)
    requires Explains(start, log, aggregate, end)
    requires row.aggregate == aggregate ==> row.before == end && Allowed(aggregate, row.before, row.after)
    ensures Explains(start, log + [row], aggregate, if row.aggregate == aggregate then row.after else end)
  {
  }

  /** One call keeps the audit in step with the statuses, except when it wins with an empty
      source; then the audit is behind until the transaction is rolled back. */
  lemma CallStaysExplained(start: map<Aggregate, Status>, view: View, call: Call)
    requires start.Keys == view.statuses.Keys
    requires forall a :: a in start ==> Explains(start[a], view.rows, a, view.statuses[a])
    ensures var view' := Moved(view, call);
      (forall a :: a in start ==> Explains(start[a], view'.rows, a, view'.statuses[a]))
      <==> !(Wins(view.statuses, call) && call.source == "")
  {
  }
}
