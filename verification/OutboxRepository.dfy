/** Enrolment and the publisher's persistence steps, as methods that rewrite the rows a
    database session sees. */
module OutboxRepository {
  import opened Outcomes
  import opened OutboxStates
  import opened OutboxRows
  import opened PayloadValidator

  // ---------------------------------------------------------------------------
  // Building an event
  // ---------------------------------------------------------------------------

  datatype Command = Command(taskName: string, queue: string, args: seq<Value>, kwargs: seq<Entry>)

  datatype EmitError = TaskNotRegistered | BadPayload(error: PayloadError) | DuplicateEventId

  datatype NewEvent = NewEvent(
    message: Message, taskLogId: int, dedupeKey: Option<string>, createdAt: Instant)

  /** The row an event is inserted as. */
  function InitialRow(event: NewEvent, id: nat): Row {
    Row(id, event.message, event.taskLogId, event.dedupeKey, Pending, 0, event.createdAt,
        None, None, None, None, event.createdAt, event.createdAt)
  }

  /** What `emit_event` checks before it hands out an event. */
  predicate Emittable(
    registry: set<string>, emitted: set<int>, command: Command, eventId: int, size: Value -> nat)
  {
    && command.taskName in registry
    && Acceptable(ListValue(command.args), 1, DEFAULT_MAX_PAYLOAD_DEPTH)
    && Acceptable(DictValue(command.kwargs), 1, DEFAULT_MAX_PAYLOAD_DEPTH)
    && size(Collapse(ListValue(command.args))) + size(Collapse(DictValue(command.kwargs))) <= DEFAULT_MAX_PAYLOAD_BYTES
    && eventId !in emitted
  }

  predicate StorableCommand(command: Command) {
    Storable(ListValue(command.args)) && Storable(DictValue(command.kwargs))
  }

  /** One Python process: its task registry and the event ids it has already emitted. */
  class EventEmitter {
    var registry: set<string>
    var emittedEventIds: set<int>

    constructor (registry: set<string>)
      ensures this.registry == registry && emittedEventIds == {}
    {
      this.registry := registry;
      emittedEventIds := {};
    }

    method EmitEvent(
      command: Command, taskLogId: int, dedupeKey: Option<string>, eventId: int, now: Instant, size: Value -> nat)
      returns (r: Result<NewEvent, EmitError>)
      modifies this`emittedEventIds
      ensures r.Ok? <==> Emittable(registry, old(emittedEventIds), command, eventId, size)
      ensures r.Ok? ==> r.value == NewEvent(
        Message(eventId, command.taskName, command.queue,
                CollapseItems(command.args), CollapseEntries(command.kwargs)),
        taskLogId, dedupeKey, now)
      ensures emittedEventIds == old(emittedEventIds) + (if r.Ok? then {eventId} else {})
    {
      if command.taskName !in registry {
        return Err(TaskNotRegistered);
      }
      var payload := ValidateCommandPayload(
        command.args, command.kwargs, DEFAULT_MAX_PAYLOAD_DEPTH, DEFAULT_MAX_PAYLOAD_BYTES, size);
      if payload.Err? {
        return Err(BadPayload(payload.error));
      }
      if eventId in emittedEventIds {
        return Err(DuplicateEventId);
      }
      emittedEventIds := emittedEventIds + {eventId};
      var (args, kwargs) := payload.value;
      var message := Message(eventId, command.taskName, command.queue, args, kwargs);
      r := Ok(NewEvent(message, taskLogId, dedupeKey, now));
    }
  }

  // ---------------------------------------------------------------------------
  // The database session
  // ---------------------------------------------------------------------------

  /** A session with an open transaction: `view` is what its statements read and write,
      `committed` is what everyone else sees. */
  class Session {
    var committed: Table
    var view: Table
    var nextId: nat // the BIGSERIAL sequence; never rolled back

    ghost predicate Valid()
      reads this
    {
      && WellKeyed(view)
      && WellKeyed(committed)
      && (forall id :: id in view || id in committed ==> id < nextId)
    }

    constructor ()
      ensures Valid() && committed == view == map[]
    {
      committed, view, nextId := map[], map[], 0;
    }

    method Commit()
      modifies this`committed
      requires Valid()
      ensures Valid() && committed == view
    {
      committed := view;
    }

    method Rollback()
      modifies this`view
      requires Valid()
      ensures Valid() && view == committed
    {
      view := committed;
    }
  }

  // ---------------------------------------------------------------------------
  // The repository
  // ---------------------------------------------------------------------------

  datatype EnrolError = TaskLogNotFlushed | Contract(error: EmitError) | NotStorable | UniqueViolation

  datatype EnrolOutcome = EnrolOutcome(row: Row, created: bool)

  datatype ConfigError = NonPositiveLease | NonPositiveBatch

  /** What an insert for `taskLogId` meets. */
  datatype Slot = Free | HeldPending(id: nat) | HeldSettled

  ghost predicate IsSlot(t: Table, taskLogId: int, slot: Slot) {
    match slot
    case Free => forall id :: id in t ==> t[id].taskLogId != taskLogId
    case HeldPending(id) => id in t && t[id].taskLogId == taskLogId && t[id].status == Pending
    case HeldSettled => exists id :: id in t && t[id].taskLogId == taskLogId && t[id].status != Pending
  }

  ghost predicate HasPending(t: Table, taskLogId: int) {
    exists id :: id in t && t[id].taskLogId == taskLogId && t[id].status == Pending
  }

  /** The UPDATEs address rows by event id and only touch a row that is `Publishing`. */
  ghost predicate IsPublishing(t: Table, id: nat, eventId: int) {
    id in t && t[id].message.eventId == eventId && t[id].status == Publishing
  }

  class OutboxRepository {
    const db: Session

    constructor (db: Session)
      ensures this.db == db
    {
      this.db := db;
    }

    /** The arbiter of `INSERT ... ON CONFLICT (task_log_id) WHERE status = 'pending'` and,
        behind it, the plain UNIQUE constraint. */
    method ProbeSlot(taskLogId: int) returns (slot: Slot)
      requires db.Valid()
      ensures IsSlot(db.view, taskLogId, slot)
    {
      var holders := set id | id in db.view.Keys && db.view[id].taskLogId == taskLogId;
      if holders == {} {
        slot := Free;
        assert forall id :: id in db.view && db.view[id].taskLogId == taskLogId ==> id in holders;
      } else {
        var id :| id in holders;
        slot := if db.view[id].status == Pending then HeldPending(id) else HeldSettled;
      }
    }

    /** At most one row per task log: a pending one is handed back, any other one makes the
        insert fail, and otherwise exactly one fresh row appears, carrying the validated event.
        Before any of this the payload is encoded as JSON, which refuses leaves that the
        validator has let pass; the event id is used up all the same. */
    method EnrollWithTaskLog(
      emitter: EventEmitter, taskLogId: Option<int>, command: Command, dedupeKey: Option<string>,
      eventId: int, now: Instant, size: Value -> nat)
      returns (r: Result<EnrolOutcome, EnrolError>)
      requires db.Valid()
      modifies db`view, db`nextId, emitter`emittedEventIds
      ensures db.Valid() && db.nextId >= old(db.nextId)
      ensures r.Err? || !r.value.created ==> db.view == old(db.view)
      ensures taskLogId.None? <==> r == Err(TaskLogNotFlushed)
      ensures taskLogId.Some? ==>
        && (r.Err? && r.error.Contract? <==>
              !Emittable(emitter.registry, old(emitter.emittedEventIds), command, eventId, size))
        && (r == Err(NotStorable) <==>
              Emittable(emitter.registry, old(emitter.emittedEventIds), command, eventId, size) && !StorableCommand(command))
      ensures emitter.emittedEventIds == old(emitter.emittedEventIds)
        + (if taskLogId.None? || (r.Err? && r.error.Contract?) then {} else {eventId})
      ensures r.Ok? || r == Err(UniqueViolation) ==>
        && taskLogId.Some?
        && (r.Ok? && !r.value.created <==> HasPending(old(db.view), taskLogId.value))
        && (r.Ok? && r.value.created <==>
              && IsSlot(old(db.view), taskLogId.value, Free)
              && forall id :: id in old(db.view) ==> old(db.view)[id].message.eventId != eventId)
      ensures r.Ok? && !r.value.created ==>
        && r.value.row in old(db.view).Values
        && r.value.row.taskLogId == taskLogId.value && r.value.row.status == Pending
      ensures r.Ok? && r.value.created ==>
        && Emittable(emitter.registry, old(emitter.emittedEventIds), command, eventId, size)
        && StorableCommand(command)
        && var message := Message(eventId, command.taskName, command.queue,
                                  CollapseItems(command.args), CollapseEntries(command.kwargs));
        && r.value.row == InitialRow(NewEvent(message, taskLogId.value, dedupeKey, now), old(db.nextId))
        && db.view == old(db.view)[old(db.nextId) := r.value.row]
    {
      hide Acceptable, Emittable, CollapseItems, CollapseEntries, Storable;
      if taskLogId.None? {
        return Err(TaskLogNotFlushed);
      }
      var event := emitter.EmitEvent(command, taskLogId.value, dedupeKey, eventId, now, size);
      if event.Err? {
        return Err(Contract(event.error));
      }
      CollapseKeepsStorable(ListValue(command.args));
      CollapseKeepsStorable(DictValue(command.kwargs));
      if !Storable(ListValue(event.value.message.args)) || !Storable(DictValue(event.value.message.kwargs)) {
        return Err(NotStorable);
      }
      var id := db.nextId;
      db.nextId := db.nextId + 1;
      var slot := ProbeSlot(taskLogId.value);
      if slot.HeldPending? {
        return Ok(EnrolOutcome(db.view[slot.id], false));
      }
      var eventTaken := exists other :: other in db.view.Keys && db.view[other].message.eventId == eventId;
      if slot.HeldSettled? || eventTaken {
        return Err(UniqueViolation);
      }
      var row := InitialRow(event.value, id);
      db.view := db.view[id := row];
      r := Ok(EnrolOutcome(row, true));
    }

    /** Locks the ordered batch of eligible rows and claims its head; `batch` is the lock set. */
    method TryClaimOne(claimedBy: string, locked: set<nat>, leaseSeconds: int, batchSize: int, now: Instant)
      returns (r: Result<Option<Row>, ConfigError>, batch: seq<nat>)
      requires db.Valid()
      modifies db`view
      ensures db.Valid()
      ensures r.Err? <==> leaseSeconds <= 0 || batchSize <= 0
      ensures r.Err? ==> db.view == old(db.view) && batch == []
      ensures r.Ok? ==> IsBatch(old(db.view), locked, now, batchSize, batch)
      ensures r.Ok? && r.value.None? ==> batch == [] && db.view == old(db.view)
      ensures r.Ok? && r.value.Some? ==>
        && batch != []
        && batch[0] in old(db.view)
        && r.value.value == ClaimRow(old(db.view)[batch[0]], claimedBy, leaseSeconds, now)
        && db.view == old(db.view)[batch[0] := r.value.value]
    {
      batch := [];
      if leaseSeconds <= 0 {
        return Err(NonPositiveLease), batch;
      }
      if batchSize <= 0 {
        return Err(NonPositiveBatch), batch;
      }
      batch := SelectBatch(db.view, locked, now, batchSize);
      if batch == [] {
        return Ok(None), batch;
      }
      var chosen := batch[0];
      assert Eligible(db.view, chosen, now);
      var row := ClaimRow(db.view[chosen], claimedBy, leaseSeconds, now);
      db.view := db.view[chosen := row];
      r := Ok(Some(row));
    }

    /** The row the conditional UPDATE matches, if any; event ids are unique. */
    method FindPublishing(eventId: int) returns (id: Option<nat>)
      requires db.Valid()
      ensures id.Some? ==> IsPublishing(db.view, id.value, eventId)
      ensures id.None? ==> forall i :: !IsPublishing(db.view, i, eventId)
    {
      var matches := set i | i in db.view.Keys
                          && db.view[i].message.eventId == eventId && db.view[i].status == Publishing;
      if matches == {} {
        id := None;
        assert forall i :: IsPublishing(db.view, i, eventId) ==> i in matches;
      } else {
        var i :| i in matches;
        id := Some(i);
      }
    }

    method MarkPublished(eventId: int, now: Instant) returns (r: Option<Row>)
      requires db.Valid()
      modifies db`view
      ensures db.Valid()
      ensures r.None? ==> db.view == old(db.view) && forall i :: !IsPublishing(old(db.view), i, eventId)
      ensures forall id :: IsPublishing(old(db.view), id, eventId) ==>
        r == Some(PublishRow(old(db.view)[id], now)) && db.view == old(db.view)[id := r.value]
    {
      var id := FindPublishing(eventId);
      if id.None? {
        return None;
      }
      var row := PublishRow(db.view[id.value], now);
      db.view := db.view[id.value := row];
      r := Some(row);
    }

    method MarkFailedToRetry(eventId: int, nextAttemptAt: Instant, lastError: string, now: Instant)
      returns (r: Option<Row>)
      requires db.Valid()
      modifies db`view
      ensures db.Valid()
      ensures r.None? ==> db.view == old(db.view) && forall i :: !IsPublishing(old(db.view), i, eventId)
      ensures forall id :: IsPublishing(old(db.view), id, eventId) ==>
        && r == Some(RetryRow(old(db.view)[id], nextAttemptAt, lastError, now))
        && db.view == old(db.view)[id := r.value]
    {
      var id := FindPublishing(eventId);
      if id.None? {
        return None;
      }
      var row := RetryRow(db.view[id.value], nextAttemptAt, lastError, now);
      db.view := db.view[id.value := row];
      r := Some(row);
    }

    method MarkFailedTerminal(eventId: int, lastError: string, now: Instant) returns (r: Option<Row>)
      requires db.Valid()
      modifies db`view
      ensures db.Valid()
      ensures r.None? ==> db.view == old(db.view) && forall i :: !IsPublishing(old(db.view), i, eventId)
      ensures forall id :: IsPublishing(old(db.view), id, eventId) ==>
        r == Some(FailRow(old(db.view)[id], lastError, now)) && db.view == old(db.view)[id := r.value]
    {
      var id := FindPublishing(eventId);
      if id.None? {
        return None;
      }
      var row := FailRow(db.view[id.value], lastError, now);
      db.view := db.view[id.value := row];
      r := Some(row);
    }

    /** Deletes exactly the published rows that are older than the cutoff, and counts them. */
    method CleanupPublishedOlderThan(olderThan: Instant) returns (deleted: nat)
      requires db.Valid()
      modifies db`view
      ensures db.Valid()
      ensures db.view == map id | id in old(db.view) && !Expired(old(db.view)[id], olderThan) :: old(db.view)[id]
      ensures forall id :: id in old(db.view) ==>
        (id !in db.view <==>
          && old(db.view)[id].status == Published
          && old(db.view)[id].publishedAt.Some? && old(db.view)[id].publishedAt.value < olderThan)
      ensures |old(db.view)| == |db.view| + deleted
    {
      var gone := set id | id in db.view.Keys && Expired(db.view[id], olderThan);
      ghost var before := db.view;
      db.view := map id | id in db.view && !Expired(db.view[id], olderThan) :: db.view[id];
      deleted := |gone|;
      assert db.view.Keys == before.Keys - gone;
      assert |before.Keys| == |before.Keys - gone| + |gone|;
    }
  }

  predicate Expired(row: Row, olderThan: Instant) {
    row.status == Published && row.publishedAt.Some? && row.publishedAt.value < olderThan
  }
}
