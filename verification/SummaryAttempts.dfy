/** Daily-summary attempts: the guarded status changes, the claim of the per-date slot, and what
    any number of racing workers can do to the history of a date. */
module SummaryAttempts {
  import opened Outcomes

  datatype Status = Claimed | Queued | Running | Succeeded | Failed | Cancelled | TimedOut | Superseded

  const ALLOWED_TRANSITIONS: set<(Status, Status)> :=
    {(Claimed, Queued), (Claimed, Running), (Claimed, Cancelled), (Claimed, Superseded),
     (Queued, Running), (Queued, Cancelled), (Queued, Superseded), (Queued, TimedOut),
     (Running, Succeeded), (Running, Failed), (Running, Cancelled), (Running, TimedOut), (Running, Superseded)}

  const ACTIVE_STATUSES: set<Status> := {Claimed, Queued, Running}

  const TERMINAL_STATUSES: set<Status> := {Succeeded, Failed, Cancelled, TimedOut, Superseded}

  const CLAIM_MAX_PASSES: nat := 3

  function AllowedSourcesFor(target: Status): set<Status> {
    set edge | edge in ALLOWED_TRANSITIONS && edge.1 == target :: edge.0
  }

  /** The guard and the table agree, terminal statuses have no way out, and every other status
      holds the slot. */
  lemma SourcesFollowTable(source: Status, target: Status)
    ensures source in AllowedSourcesFor(target) <==> (source, target) in ALLOWED_TRANSITIONS
    ensures source in AllowedSourcesFor(target) ==> source in ACTIVE_STATUSES && Rank(source) < Rank(target)
    ensures source in ACTIVE_STATUSES <==> source !in TERMINAL_STATUSES
  {
  }

  /** How far an attempt has come. */
  function Rank(status: Status): nat {
    match status
    case Claimed => 0
    case Queued => 1
    case Running => 2
    case _ => 3
  }

  // ---------------------------------------------------------------------------
  // Rows
  // ---------------------------------------------------------------------------

  datatype Diagnostics = Diagnostics(errorType: Option<string>, lastError: Option<string>, failureReason: Option<string>)

  const NO_DIAGNOSTICS := Diagnostics(None, None, None)

  datatype Attempt = Attempt(
    date: int, number: int, status: Status, diagnostics: Diagnostics, eventsCount: Option<int>,
    inputTokenEstimate: Option<int>, finishedAt: Option<int>)

  type Table = map<nat, Attempt>

  /** The `mark_*` methods, with what the caller passes. */
  datatype Mark =
    | Queue
    | Run(eventsCount: Option<int>, inputTokenEstimate: Option<int>)
    | Succeed
    | Fail(errorType: string, lastError: string, failureReason: string)
    | Cancel(lastError: string)
    | TimeOut(lastError: string)
    | Supersede

  function TargetOf(mark: Mark): Status {
    match mark
    case Queue => Queued
    case Run(_, _) => Running
    case Succeed => Succeeded
    case Fail(_, _, _) => Failed
    case Cancel(_) => Cancelled
    case TimeOut(_) => TimedOut
    case Supersede => Superseded
  }

  function NewDiagnostics(d: Diagnostics, mark: Mark): Diagnostics {
    match mark
    case Succeed => NO_DIAGNOSTICS
    case Fail(errorType, lastError, reason) => Diagnostics(Some(errorType), Some(lastError), Some(reason))
    case Cancel(lastError) => d.(lastError := Some(lastError), failureReason := Some("cancelled"))
    case TimeOut(lastError) => d.(lastError := Some(lastError), failureReason := Some("timeout"))
    case _ => d
  }

  function MarkedRow(a: Attempt, mark: Mark, now: int): Attempt {
    a.(status := TargetOf(mark),
       diagnostics := NewDiagnostics(a.diagnostics, mark),
       eventsCount := if mark.Run? && mark.eventsCount.Some? then mark.eventsCount else a.eventsCount,
       inputTokenEstimate :=
         if mark.Run? && mark.inputTokenEstimate.Some? then mark.inputTokenEstimate else a.inputTokenEstimate,
       finishedAt := if TargetOf(mark) in TERMINAL_STATUSES then Some(now) else a.finishedAt)
  }

  predicate Applies(t: Table, id: nat, mark: Mark) {
    id in t && t[id].status in AllowedSourcesFor(TargetOf(mark))
  }

  function Marked(t: Table, id: nat, mark: Mark, now: int): Table {
    if Applies(t, id, mark) then t[id := MarkedRow(t[id], mark, now)] else t
  }

  /** Each mark, for itself: from where it works, and what it leaves behind. A row keeps its date
      and number, and what the mark does not set. */
  lemma MarkDecides(t: Table, id: nat, mark: Mark, now: int)
    requires id in t
    ensures var a, b := t[id], Marked(t, id, mark, now)[id]; var d := a.diagnostics;
      && b.date == a.date && b.number == a.number
      && match mark
         case Queue => b == if a.status == Claimed then a.(status := Queued) else a
         case Run(count, estimate) =>
           if a.status == Claimed || a.status == Queued then
             && b.status == Running && b.diagnostics == d && b.finishedAt == a.finishedAt
             && b.eventsCount == (if count.Some? then count else a.eventsCount)
             && b.inputTokenEstimate == (if estimate.Some? then estimate else a.inputTokenEstimate)
           else b == a
         case Succeed => b == if a.status == Running
           then a.(status := Succeeded, finishedAt := Some(now), diagnostics := Diagnostics(None, None, None)) else a
         case Fail(errorType, lastError, reason) => b == if a.status == Running
           then a.(status := Failed, finishedAt := Some(now),
                   diagnostics := Diagnostics(Some(errorType), Some(lastError), Some(reason))) else a
         case Cancel(lastError) => b == if a.status == Claimed || a.status == Queued || a.status == Running
           then a.(status := Cancelled, finishedAt := Some(now),
                   diagnostics := Diagnostics(d.errorType, Some(lastError), Some("cancelled"))) else a
         case TimeOut(lastError) => b == if a.status == Queued || a.status == Running
           then a.(status := TimedOut, finishedAt := Some(now),
                   diagnostics := Diagnostics(d.errorType, Some(lastError), Some("timeout"))) else a
         case Supersede => b == if a.status == Claimed || a.status == Queued || a.status == Running
           then a.(status := Superseded, finishedAt := Some(now)) else a
  {
  }

  ghost predicate HasActive(t: Table, date: int) {
    exists id :: id in t && t[id].date == date && t[id].status in ACTIVE_STATUSES
  }

  function NewAttempt(date: int, number: int): Attempt {
    Attempt(date, number, Claimed, NO_DIAGNOSTICS, None, None, None)
  }

  /** `n` is one more than the largest number of the date, or 1 without attempts. */
  ghost predicate IsNextNumber(t: Table, date: int, n: int) {
    && n >= 1
    && (forall id :: id in t && t[id].date == date ==> t[id].number < n)
    && (n == 1 || exists id :: id in t && t[id].date == date && t[id].number == n - 1)
  }

  // ---------------------------------------------------------------------------
  // The repository
  // ---------------------------------------------------------------------------

  datatype ClaimOutcome =
    | Created(id: nat, table: Table)
    | Existing(id: nat)
    | NotPositive
    | GaveUp

  /** `SELECT ... WHERE status IN (active) ORDER BY attempt_no DESC LIMIT 1` */
  method FindActiveForDate(t: Table, date: int) returns (found: Option<nat>)
    ensures found.None? <==> !HasActive(t, date)
    ensures found.Some? ==>
      && found.value in t && t[found.value].date == date && t[found.value].status in ACTIVE_STATUSES
      && forall id :: id in t && t[id].date == date && t[id].status in ACTIVE_STATUSES ==>
           t[id].number <= t[found.value].number
  {
    found := None;
    var rest := t.Keys;
    while rest != {}
      invariant rest <= t.Keys
      invariant found.None? ==> forall id :: id in t && id !in rest ==> !(t[id].date == date && t[id].status in ACTIVE_STATUSES)
      invariant found.Some? ==>
        && found.value in t && t[found.value].date == date && t[found.value].status in ACTIVE_STATUSES
        && forall id :: id in t && id !in rest && t[id].date == date && t[id].status in ACTIVE_STATUSES ==>
             t[id].number <= t[found.value].number
      decreases rest
    {
      var id :| id in rest;
      rest := rest - {id};
      if t[id].date == date && t[id].status in ACTIVE_STATUSES
         && (found.None? || t[id].number > t[found.value].number) {
        found := Some(id);
      }
    }
  }

  method NextAttemptNo(t: Table, date: int) returns (n: int)
    requires forall id :: id in t ==> t[id].number >= 1
    ensures IsNextNumber(t, date, n)
  {
    var rest := t.Keys;
    n := 1;
    while rest != {}
      invariant rest <= t.Keys && n >= 1
      invariant forall id :: id in t && id !in rest && t[id].date == date ==> t[id].number < n
      invariant n == 1 || exists id :: id in t && t[id].date == date && t[id].number == n - 1
      decreases rest
    {
      var id :| id in rest;
      rest := rest - {id};
      if t[id].date == date && t[id].number >= n {
        n := t[id].number + 1;
      }
    }
  }

  /** `claim`. Each statement of a READ COMMITTED transaction sees what other transactions have
      committed by then: pass `k` inserts against `inserts[k]` and looks up in `lookups[k]`. */
  method Claim(
    date: int, number: int, inserts: seq<Table>, lookups: seq<Table>, freshId: nat)
    returns (r: ClaimOutcome)
    requires |inserts| == |lookups| == 3
    ensures number <= 0 <==> r.NotPositive?
    ensures r.Created? ==>
      && r.id == freshId
      && exists k :: 0 <= k < 3 && !HasActive(inserts[k], date)
           && r.table == inserts[k][freshId := NewAttempt(date, number)]
    ensures r.Existing? ==>
      exists k :: 0 <= k < 3 && HasActive(inserts[k], date)
        && r.id in lookups[k] && lookups[k][r.id].date == date && lookups[k][r.id].status in ACTIVE_STATUSES
    ensures r.GaveUp? <==> number > 0 && forall k :: 0 <= k < 3 ==>
      HasActive(inserts[k], date) && !HasActive(lookups[k], date)
  {
    if number <= 0 {
      return NotPositive;
    }
    var k := 0;
    while k < CLAIM_MAX_PASSES
      invariant 0 <= k <= CLAIM_MAX_PASSES
      invariant forall j :: 0 <= j < k ==> HasActive(inserts[j], date) && !HasActive(lookups[j], date)
    {
      var holder := FindActiveForDate(inserts[k], date);
      if holder.None? {
        return Created(freshId, inserts[k][freshId := NewAttempt(date, number)]);
      }
      var existing := FindActiveForDate(lookups[k], date);
      if existing.Some? {
        return Existing(existing.value);
      }
      k := k + 1;
    }
    return GaveUp;
  }

  class AttemptRepository {
    var rows: Table

    constructor (rows: Table)
      ensures this.rows == rows
    {
      this.rows := rows;
    }

    /** `_transition` for all seven `mark_*` methods. */
    method Transition(id: nat, mark: Mark, now: int) returns (r: Option<Attempt>)
      modifies this
      ensures r.Some? <==> Applies(old(rows), id, mark)
      ensures rows == Marked(old(rows), id, mark, now)
      ensures r.Some? ==> id in rows && r.value == rows[id]
    {
      var sources := AllowedSourcesFor(TargetOf(mark));
      if id !in rows {
        return None;
      }
      var row := rows[id];
      if row.status !in sources {
        return None;
      }
      if TargetOf(mark) in TERMINAL_STATUSES {
        row := row.(finishedAt := Some(now));
      }
      if mark.Run? && mark.eventsCount.Some? {
        row := row.(eventsCount := mark.eventsCount);
      }
      if mark.Run? && mark.inputTokenEstimate.Some? {
        row := row.(inputTokenEstimate := mark.inputTokenEstimate);
      }
      row := row.(status := TargetOf(mark), diagnostics := NewDiagnostics(row.diagnostics, mark));
      rows := rows[id := row];
      return Some(row);
    }
  }
}
