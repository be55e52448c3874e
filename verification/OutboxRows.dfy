/** The `outbox_event` table as a value: its rows, what each UPDATE statement does to one
    row, and the ordered batch that the claim query locks.

    Instants are whole microseconds. */
module OutboxRows {
  import opened Outcomes
  import opened OutboxStates
  import opened PayloadValidator

  type Instant = int

  const SECOND: int := 1_000_000

  /** What the broker is asked to run; `eventId` doubles as the Celery task id. */
  datatype Message = Message(
    eventId: int, taskName: string, queue: string, args: seq<Value>, kwargs: seq<Entry>)

  datatype Row = Row(
    id: nat,
    message: Message,
    taskLogId: int,
    dedupeKey: Option<string>,
    status: Status,
    attemptCount: nat,
    nextAttemptAt: Instant,
    claimedBy: Option<string>,
    leaseExpiresAt: Option<Instant>,
    publishedAt: Option<Instant>,
    lastError: Option<string>,
    createdAt: Instant,
    updatedAt: Instant)

  type Table = map<nat, Row>

  // ---------------------------------------------------------------------------
  // The four UPDATEs, row by row
  // ---------------------------------------------------------------------------

  function ClaimRow(row: Row, claimedBy: string, leaseSeconds: int, now: Instant): Row {
    row.(status := Publishing,
         claimedBy := Some(claimedBy),
         leaseExpiresAt := Some(now + leaseSeconds * SECOND),
         updatedAt := now)
  }

  function PublishRow(row: Row, now: Instant): Row {
    row.(status := Published,
         publishedAt := Some(now),
         claimedBy := None,
         leaseExpiresAt := None,
         lastError := None,
         updatedAt := now)
  }

  function RetryRow(row: Row, nextAttemptAt: Instant, error: string, now: Instant): Row {
    row.(status := Pending,
         attemptCount := row.attemptCount + 1,
         nextAttemptAt := nextAttemptAt,
         claimedBy := None,
         leaseExpiresAt := None,
         lastError := Some(error),
         updatedAt := now)
  }

  function FailRow(row: Row, error: string, now: Instant): Row {
    row.(status := Failed,
         claimedBy := None,
         leaseExpiresAt := None,
         lastError := Some(error),
         updatedAt := now)
  }

  // ---------------------------------------------------------------------------
  // Table shape
  // ---------------------------------------------------------------------------

  /** The primary key, and the two UNIQUE columns. */
  ghost predicate WellKeyed(t: Table) {
    && (forall id :: id in t ==> t[id].id == id)
    && (forall i, j :: i in t && j in t && i != j ==>
          t[i].message.eventId != t[j].message.eventId && t[i].taskLogId != t[j].taskLogId)
  }

  predicate Eligible(t: Table, id: nat, now: Instant) {
    id in t && t[id].status == Pending && t[id].nextAttemptAt <= now
  }

  /** `ORDER BY next_attempt_at, id`. */
  predicate Before(a: Row, b: Row) {
    a.nextAttemptAt < b.nextAttemptAt || (a.nextAttemptAt == b.nextAttemptAt && a.id < b.id)
  }

  // ---------------------------------------------------------------------------
  // SELECT ... ORDER BY ... LIMIT n FOR UPDATE SKIP LOCKED
  // ---------------------------------------------------------------------------

  /** `batch` is what the claim query returns and locks: the first `limit` eligible rows, in
      order, among those that no other transaction has locked. */
  ghost predicate IsBatch(t: Table, locked: set<nat>, now: Instant, limit: int, batch: seq<nat>) {
    && (forall i :: 0 <= i < |batch| ==> Eligible(t, batch[i], now) && batch[i] !in locked)
    && (forall i, j :: 0 <= i < j < |batch| ==> Before(t[batch[i]], t[batch[j]]))
    && |batch| <= limit
    && (forall id :: Eligible(t, id, now) && id !in locked && id !in batch ==>
          |batch| == limit && forall i :: 0 <= i < |batch| ==> Before(t[batch[i]], t[id]))
  }

  /** The batch is determined by the table, the locks, the time and the limit. */
  lemma BatchIsUnique(t: Table, locked: set<nat>, now: Instant, limit: int, a: seq<nat>, b: seq<nat>)
    requires WellKeyed(t)
    requires IsBatch(t, locked, now, limit, a) && IsBatch(t, locked, now, limit, b)
    ensures a == b
  {
    var n := if |a| <= |b| then |a| else |b|;
    BatchesAgree(t, locked, now, limit, a, b, n);
    if |a| < |b| {
      ExtensionIsNoBatch(t, locked, now, limit, a, b);
    } else if |b| < |a| {
      ExtensionIsNoBatch(t, locked, now, limit, b, a);
    }
  }

  /** A batch leaves out a row only when it is full, so nothing longer can extend it. */
  lemma ExtensionIsNoBatch(t: Table, locked: set<nat>, now: Instant, limit: int, a: seq<nat>, b: seq<nat>)
    requires WellKeyed(t) && |a| < |b| && a == b[..|a|]
    requires IsBatch(t, locked, now, limit, a)
    ensures !IsBatch(t, locked, now, limit, b)
  {
    var next := b[|a|];
    assert forall j :: 0 <= j < |a| ==> a[j] == b[j];
    assert next in a ==> exists j :: 0 <= j < |a| && b[j] == next;
  }

  lemma {:induction false} BatchesAgree(
    t: Table, locked: set<nat>, now: Instant, limit: int, a: seq<nat>, b: seq<nat>, n: nat)
    requires WellKeyed(t) && n <= |a| && n <= |b|
    requires IsBatch(t, locked, now, limit, a) && IsBatch(t, locked, now, limit, b)
    ensures a[..n] == b[..n]
  {
    if n > 0 {
      BatchesAgree(t, locked, now, limit, a, b, n - 1);
      var x, y := a[n - 1], b[n - 1];
      if x != y {
        FirstDifference(t, locked, now, limit, a, b, n - 1);
        FirstDifference(t, locked, now, limit, b, a, n - 1);
      }
      assert a[..n] == a[..n - 1] + [x] && b[..n] == b[..n - 1] + [y];
    }
  }

  /** Where two batches first differ, the entry of one may not precede the entry of the other. */
  lemma FirstDifference(
    t: Table, locked: set<nat>, now: Instant, limit: int, a: seq<nat>, b: seq<nat>, k: nat)
    requires WellKeyed(t) && k < |a| && k < |b| && a[..k] == b[..k]
    requires IsBatch(t, locked, now, limit, a) && IsBatch(t, locked, now, limit, b)
    ensures !Before(t[a[k]], t[b[k]])
  {
  }

  /** The head of a batch is the least eligible unlocked row. */
  lemma BatchHeadIsLeast(t: Table, locked: set<nat>, now: Instant, limit: int, batch: seq<nat>, id: nat)
    requires IsBatch(t, locked, now, limit, batch) && batch != []
    requires Eligible(t, id, now) && id !in locked
    ensures id == batch[0] || Before(t[batch[0]], t[id])
  {
  }

  /** A positive limit finds a row exactly when there is one to find. */
  lemma BatchEmptyIffNothingEligible(t: Table, locked: set<nat>, now: Instant, limit: int, batch: seq<nat>)
    requires IsBatch(t, locked, now, limit, batch) && limit > 0
    ensures batch == [] <==> forall id :: Eligible(t, id, now) ==> id in locked
  {
    if batch != [] {
      assert Eligible(t, batch[0], now) && batch[0] !in locked;
    }
  }

  /** The least row of a non-empty set of ids. */
  method LeastRow(t: Table, ids: set<nat>) returns (least: nat)
    requires ids != {} && ids <= t.Keys
    requires forall id :: id in t ==> t[id].id == id
    ensures least in ids
    ensures forall id :: id in ids && id != least ==> Before(t[least], t[id])
  {
    least :| least in ids;
    var rest := ids - {least};
    while rest != {}
      invariant rest <= ids && least in ids && least !in rest
      invariant forall id :: id in ids - rest && id != least ==> Before(t[least], t[id])
      decreases rest
    {
      var next :| next in rest;
      if Before(t[next], t[least]) {
        least := next;
      }
      rest := rest - {next};
    }
  }

  /** The claim query: repeatedly take the least remaining candidate. */
  method SelectBatch(t: Table, locked: set<nat>, now: Instant, limit: nat) returns (batch: seq<nat>)
    requires forall id :: id in t ==> t[id].id == id
    ensures IsBatch(t, locked, now, limit, batch)
  {
    var rest := set id | id in t.Keys && Eligible(t, id, now) && id !in locked;
    batch := [];
    while rest != {} && |batch| < limit
      invariant rest <= t.Keys && |batch| <= limit
      invariant forall id :: id in rest ==> Eligible(t, id, now) && id !in locked && id !in batch
      invariant forall i :: 0 <= i < |batch| ==> Eligible(t, batch[i], now) && batch[i] !in locked
      invariant forall i, j :: 0 <= i < j < |batch| ==> Before(t[batch[i]], t[batch[j]])
      invariant forall i, id :: 0 <= i < |batch| && id in rest ==> Before(t[batch[i]], t[id])
      invariant forall id :: Eligible(t, id, now) && id !in locked && id !in batch ==> id in rest
      decreases rest
    {
      var least := LeastRow(t, rest);
      batch := batch + [least];
      rest := rest - {least};
    }
  }
}
