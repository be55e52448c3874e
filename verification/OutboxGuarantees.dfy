/** What the outbox promises in every reachable state, read off the invariant. */
module OutboxGuarantees {
  import opened Outcomes
  import opened OutboxStates
  import opened OutboxRows
  import opened RetryPolicy
  import opened OutboxRepository
  import opened OutboxProtocol
  import opened OutboxSafety

  // ---------------------------------------------------------------------------
  // The promises
  // ---------------------------------------------------------------------------

  /** No row is locked, let alone being sent, by two publishers. */
  ghost predicate ExclusiveClaims(s: System) {
    forall p, q, id :: OpenTx(s, p) && OpenTx(s, q) && p != q && id in s.publishers[p].batch ==>
      id !in s.publishers[q].batch
  }

  /** A row's message arrives at most once, plus once per crash after an accepted send and once
      per send that raised; a published row's message has arrived. */
  ghost predicate DeliveryBounds(s: System) {
    forall id :: id in s.ledger.enrolled ==>
      var arrived := Arrived(s.traffic.log, s.ledger.enrolled[id].eventId);
      && arrived <= 1 + s.traffic.crashedAfterSend[id] + s.traffic.raised[id]
      && (id in s.ledger.published ==> arrived >= 1)
  }

  /** Whatever arrives is, field by field, what some business transaction committed. */
  ghost predicate FaithfulMessages(s: System) {
    && (forall i :: 0 <= i < |s.traffic.log| ==> IsEnrolled(s.ledger, s.traffic.log[i]))
    && (forall id :: id in s.rows ==> id in s.ledger.enrolled && s.ledger.enrolled[id] == s.rows[id].message)
  }

  /** No claim, lease or `Publishing` status is ever visible to others. */
  ghost predicate NothingStuck(s: System) {
    forall id :: id in s.rows ==>
      s.rows[id].status != Publishing && s.rows[id].claimedBy == None && s.rows[id].leaseExpiresAt == None
  }

  /** The attempt count is the number of committed retryable failures and leaves an attempt. */
  ghost predicate BudgetsKept(cfg: Config, s: System) {
    forall id :: id in s.rows ==>
      s.rows[id].attemptCount == s.ledger.retries[id] && WithinBudget(cfg, s.rows[id].attemptCount)
  }

  ghost function WithStatus(rows: Table, status: Status): set<nat> {
    set id | id in rows.Keys && rows[id].status == status
  }

  /** Every enrolled row is pending, published, failed or cleaned up, and never two of these. */
  ghost predicate Conserved(s: System) {
    |s.ledger.enrolled|
      == |WithStatus(s.rows, Pending)| + |WithStatus(s.rows, Published)| + |WithStatus(s.rows, Failed)| + |s.ledger.cleaned|
  }

  ghost predicate Safe(cfg: Config, s: System) {
    && ExclusiveClaims(s)
    && DeliveryBounds(s)
    && FaithfulMessages(s)
    && NothingStuck(s)
    && BudgetsKept(cfg, s)
    && Conserved(s)
    && WellKeyed(s.rows)
  }

  // ---------------------------------------------------------------------------
  // Proofs
  // ---------------------------------------------------------------------------

  lemma DeliveryIsBounded(cfg: Config, s: System)
    requires Inv(cfg, s)
    ensures DeliveryBounds(s)
  {
  }

  lemma StatusesPartition(rows: Table)
    requires forall id :: id in rows ==> rows[id].status != Publishing
    ensures |rows.Keys| == |WithStatus(rows, Pending)| + |WithStatus(rows, Published)| + |WithStatus(rows, Failed)|
  {
    var pending, published, failed := WithStatus(rows, Pending), WithStatus(rows, Published), WithStatus(rows, Failed);
    assert rows.Keys == (pending + published) + failed;
    assert |pending + published| == |pending| + |published|;
  }

  lemma NothingIsLost(cfg: Config, s: System)
    requires RowsOk(cfg, s.rows, s.nextId)
    requires s.ledger.enrolled.Keys == s.rows.Keys + s.ledger.cleaned && s.rows.Keys !! s.ledger.cleaned
    ensures Conserved(s)
  {
    forall id | id in s.rows
      ensures s.rows[id].status != Publishing
    {
      assert CommittedRow(cfg, s.rows[id]);
    }
    StatusesPartition(s.rows);
    assert |s.ledger.enrolled| == |s.ledger.enrolled.Keys|;
  }

  lemma LocksExclude(s: System)
    requires LocksDisjoint(s.publishers)
    ensures ExclusiveClaims(s)
  {
    forall p, q, id | OpenTx(s, p) && OpenTx(s, q) && p != q && id in s.publishers[p].batch
      ensures id !in s.publishers[q].batch
    {
      assert Holds(s.publishers[p], id);
    }
  }

  lemma RowsAreClean(cfg: Config, s: System)
    requires RowsOk(cfg, s.rows, s.nextId) && LedgerOk(s.rows, s.nextId, s.issued, s.ledger)
    ensures NothingStuck(s) && BudgetsKept(cfg, s)
    ensures forall id :: id in s.rows ==> id in s.ledger.enrolled && s.ledger.enrolled[id] == s.rows[id].message
  {
  }

  lemma InvIsSafe(cfg: Config, s: System)
    requires Inv(cfg, s)
    ensures Safe(cfg, s)
  {
    DeliveryIsBounded(cfg, s);
    NothingIsLost(cfg, s);
    LocksExclude(s);
    RowsAreClean(cfg, s);
  }

  lemma {:induction false} RunKeepsInv(cfg: Config, s: System, steps: seq<Step>)
    requires Inv(cfg, s) && Runnable(cfg, s, steps)
    ensures Inv(cfg, After(cfg, s, steps))
    decreases |steps|
  {
    if steps != [] {
      StepKeepsInv(cfg, s, steps[0]);
      RunKeepsInv(cfg, Apply(cfg, s, steps[0]), steps[1..]);
    }
  }

  /** Main theorem: every state that any interleaving reaches from an empty table is safe. */
  lemma EveryRunIsSafe(cfg: Config, s: System, steps: seq<Step>)
    requires Initial(s) && Runnable(cfg, s, steps)
    ensures Safe(cfg, After(cfg, s, steps))
  {
    InitialInv(cfg, s);
    RunKeepsInv(cfg, s, steps);
    InvIsSafe(cfg, After(cfg, s, steps));
  }

  // ---------------------------------------------------------------------------
  // Steps
  // ---------------------------------------------------------------------------

  /** Each step changes a committed row only along table edges, never its message or task log,
      and never a row that is already published or failed. */
  lemma StepFollowsTable(cfg: Config, s: System, step: Step, id: nat)
    requires Inv(cfg, s) && Enabled(cfg, s, step)
    requires id in s.rows && id in Apply(cfg, s, step).rows
    ensures var before, after := s.rows[id], Apply(cfg, s, step).rows[id];
      && CommittedHop(before.status, after.status)
      && after.message == before.message && after.taskLogId == before.taskLogId
      && (before.status == Published || before.status == Failed ==> after == before)
      && before.attemptCount <= after.attemptCount
  {
    hide RowsOk, TransactionsOk, LocksDisjoint, TrafficOk, IsBatch, MarkRow, ClaimRow;
    if step.Commit? {
      CommittedMark(cfg, s, step.p);
    } else {
      OnlyCommitRewrites(cfg, s, step, id);
    }
  }

  lemma OnlyCommitRewrites(cfg: Config, s: System, step: Step, id: nat)
    requires Enabled(cfg, s, step) && !step.Commit?
    requires EnrolmentsOk(s.rows, s.nextId, s.issued, s.ledger.enrolled, s.enrolments)
    requires id in s.rows && id in s.ledger.enrolled && id in Apply(cfg, s, step).rows
    ensures Apply(cfg, s, step).rows[id] == s.rows[id]
  {
  }

  /** Rows leave the table only by cleanup, and then exactly those published before its cutoff. */
  lemma OnlyCleanupRemoves(cfg: Config, s: System, step: Step, id: nat)
    requires Inv(cfg, s) && Enabled(cfg, s, step)
    requires id in s.rows
    ensures id !in Apply(cfg, s, step).rows <==>
      && step.Cleanup? && s.rows[id].status == Published
      && s.rows[id].publishedAt.Some? && s.rows[id].publishedAt.value < step.olderThan
  {
  }

  /** A crash, at any point of a poll, is a rollback: no committed row changes, and every row
      the publisher had locked is free again, the head still pending and still due. */
  lemma CrashIsRollback(cfg: Config, s: System, p: string)
    requires Inv(cfg, s) && Enabled(cfg, s, Crash(p))
    ensures var s' := Apply(cfg, s, Crash(p));
      && s'.rows == s.rows
      && (forall id :: id in s.publishers[p].batch ==> !IsLocked(s', id))
      && Eligible(s'.rows, s.publishers[p].batch[0], s'.now)
  {
  }

  // ---------------------------------------------------------------------------
  // Counters
  // ---------------------------------------------------------------------------

  ghost function OpenMarks(publishers: map<string, Publisher>, status: Status): set<string> {
    set p | p in publishers.Keys && RaisedMark(publishers[p], status)
  }

  /** The merged counters against what was really committed. */
  ghost predicate CountersOk(s: System) {
    Tally(s.counters, |s.ledger.published|, |s.ledger.retries|, |s.ledger.failed|,
          |OpenMarks(s.publishers, Pending)|, |OpenMarks(s.publishers, Failed)|)
  }

  predicate Tally(c: Counters, published: nat, retries: nat, failed: nat, openRetries: nat, openFailures: nat) {
    && Balanced(c.stats)
    && c.stats.published == published
    && c.stats.retryableFailures == retries + c.lostRetries + openRetries
    && c.stats.terminalFailures == failed + c.lostFailures + openFailures
  }

  lemma PutOpenMarks(publishers: map<string, Publisher>, p: string, tx: Publisher, status: Status)
    requires p in publishers
    ensures |OpenMarks(publishers[p := tx], status)|
         == |OpenMarks(publishers, status)|
            - (if RaisedMark(publishers[p], status) then 1 else 0) + (if RaisedMark(tx, status) then 1 else 0)
  {
    var before, after := OpenMarks(publishers, status), OpenMarks(publishers[p := tx], status);
    assert before - {p} == after - {p};
    assert |before - {p}| == |before| - (if p in before then 1 else 0);
    assert |after - {p}| == |after| - (if p in after then 1 else 0);
  }

  lemma MarkKeepsCounters(cfg: Config, s: System, p: string)
    requires Inv(cfg, s) && CountersOk(s) && OpenTx(s, p) && s.publishers[p].phase.Sent?
    ensures CountersOk(ApplyMark(cfg, s, p))
  {
    hide RowsOk, EnrolmentsOk, LocksDisjoint, LedgerOk, TrafficOk, OpenMarks;
    var tx := ApplyMark(cfg, s, p).publishers[p];
    PutOpenMarks(s.publishers, p, tx, Pending);
    PutOpenMarks(s.publishers, p, tx, Failed);
  }

  lemma CommitKeepsCounters(cfg: Config, s: System, p: string)
    requires Inv(cfg, s) && CountersOk(s) && OpenTx(s, p) && s.publishers[p].phase.Marked?
    ensures CountersOk(ApplyCommit(cfg, s, p))
  {
    hide RowsOk, EnrolmentsOk, TransactionsOk, LocksDisjoint, LedgerOk, TrafficOk, OpenMarks, CommittedRow;
    var tx := s.publishers[p];
    CommittedMark(cfg, s, p);
    HeadIsEnrolled(cfg, s, p);
    PutOpenMarks(s.publishers, p, Idle, Pending);
    PutOpenMarks(s.publishers, p, Idle, Failed);
    SettleSizes(s.ledger, tx.batch[0], tx.row);
  }

  lemma SettleSizes(l: Ledger, id: nat, row: Row)
    requires id !in l.published && id !in l.failed
    ensures var l' := Settle(l, id, row);
      && |l'.published| == |l.published| + (if row.status == Published then 1 else 0)
      && |l'.failed| == |l.failed| + (if row.status == Failed then 1 else 0)
      && |l'.retries| == |l.retries| + (if row.status == Pending then 1 else 0)
  {
  }

  lemma StepKeepsCounters(cfg: Config, s: System, step: Step)
    requires Inv(cfg, s) && CountersOk(s) && Enabled(cfg, s, step)
    ensures CountersOk(Apply(cfg, s, step))
  {
    match step {
      case Claim(p, batch) =>
        PutOpenMarks(s.publishers, p, Apply(cfg, s, step).publishers[p], Pending);
        PutOpenMarks(s.publishers, p, Apply(cfg, s, step).publishers[p], Failed);
      case Send(p, outcome) =>
        PutOpenMarks(s.publishers, p, Apply(cfg, s, step).publishers[p], Pending);
        PutOpenMarks(s.publishers, p, Apply(cfg, s, step).publishers[p], Failed);
      case Mark(p) => MarkKeepsCounters(cfg, s, p);
      case Commit(p) => CommitKeepsCounters(cfg, s, p);
      case Crash(p) =>
        PutOpenMarks(s.publishers, p, Idle, Pending);
        PutOpenMarks(s.publishers, p, Idle, Failed);
      case _ =>
    }
  }

  predicate CrashFree(steps: seq<Step>) {
    forall i :: 0 <= i < |steps| ==> !steps[i].Crash?
  }

  lemma {:induction false} RunKeepsCounters(cfg: Config, s: System, steps: seq<Step>)
    requires Inv(cfg, s) && CountersOk(s) && Runnable(cfg, s, steps)
    ensures CountersOk(After(cfg, s, steps))
    ensures CrashFree(steps) ==>
      && After(cfg, s, steps).counters.lostRetries == s.counters.lostRetries
      && After(cfg, s, steps).counters.lostFailures == s.counters.lostFailures
    decreases |steps|
  {
    if steps != [] {
      StepKeepsInv(cfg, s, steps[0]);
      StepKeepsCounters(cfg, s, steps[0]);
      assert CrashFree(steps) ==> CrashFree(steps[1..]);
      RunKeepsCounters(cfg, Apply(cfg, s, steps[0]), steps[1..]);
    }
  }

  ghost predicate AtRest(s: System) {
    forall p :: p in s.publishers ==> s.publishers[p].Idle?
  }

  lemma AtRestNoOpenMarks(s: System)
    requires AtRest(s)
    ensures OpenMarks(s.publishers, Pending) == {} && OpenMarks(s.publishers, Failed) == {}
  {
  }

  lemma InitialCounters(cfg: Config, s: System)
    requires Initial(s)
    ensures Inv(cfg, s) && CountersOk(s) && s.counters.lostRetries == s.counters.lostFailures == 0
  {
    InitialInv(cfg, s);
    AtRestNoOpenMarks(s);
  }

  /** Nothing in flight and nothing lost: each counter is the number of things it counts. */
  ghost predicate CountersExact(s: System) {
    && s.counters.stats.published == |s.ledger.published|
    && s.counters.stats.retryableFailures == |s.ledger.retries|
    && s.counters.stats.terminalFailures == |s.ledger.failed|
    && s.counters.stats.claimed == |s.ledger.published| + |s.ledger.retries| + |s.ledger.failed|
  }

  lemma RestingCounters(s: System)
    requires AtRest(s) && CountersOk(s) && s.counters.lostRetries == s.counters.lostFailures == 0
    ensures CountersExact(s)
  {
  }

  /** In every run the merged counters balance and are off only by marks that are open or were
      lost in a crash. */
  lemma CountersAlwaysTally(cfg: Config, s: System, steps: seq<Step>)
    requires Initial(s) && Runnable(cfg, s, steps)
    ensures CountersOk(After(cfg, s, steps))
  {
    InitialCounters(cfg, s);
    RunKeepsCounters(cfg, s, steps);
  }

  /** A crash-free run that has come to rest has counted exactly. */
  lemma CrashFreeCountersAreExact(cfg: Config, s: System, steps: seq<Step>)
    requires Initial(s) && Runnable(cfg, s, steps)
    requires CrashFree(steps) && AtRest(After(cfg, s, steps))
    ensures CountersExact(After(cfg, s, steps))
  {
    InitialCounters(cfg, s);
    RunKeepsCounters(cfg, s, steps);
    RestingCounters(After(cfg, s, steps));
  }
}
