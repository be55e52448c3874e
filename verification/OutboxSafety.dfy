/** Every step of the outbox protocol keeps its invariant, and what that means for whole runs. */
module OutboxSafety {
  import opened Outcomes
  import opened OutboxStates
  import opened OutboxRows
  import opened RetryPolicy
  import opened OutboxRepository
  import opened OutboxProtocol

  // ---------------------------------------------------------------------------
  // Counting arrivals
  // ---------------------------------------------------------------------------

  lemma {:induction false} UnseenNeverArrived(log: seq<Message>, eventId: int)
    requires forall i :: 0 <= i < |log| ==> log[i].eventId != eventId
    ensures Arrived(log, eventId) == 0
  {
    if log != [] {
      UnseenNeverArrived(log[..|log| - 1], eventId);
    }
  }

  lemma ArrivedAfter(log: seq<Message>, message: Message, eventId: int)
    ensures Arrived(log + [message], eventId)
         == Arrived(log, eventId) + (if message.eventId == eventId then 1 else 0)
  {
  }

  // ---------------------------------------------------------------------------
  // Enrolment
  // ---------------------------------------------------------------------------

  lemma EnrolBeginKeepsEnrolments(cfg: Config, s: System, tx: int, event: NewEvent)
    requires Inv(cfg, s) && Enabled(cfg, s, EnrolBegin(tx, event))
    ensures var s' := Apply(cfg, s, EnrolBegin(tx, event));
      EnrolmentsOk(s'.rows, s'.nextId, s'.issued, s'.ledger.enrolled, s'.enrolments)
  {
    var s' := Apply(cfg, s, EnrolBegin(tx, event));
    forall other | other in s'.enrolments
      ensures EnrolmentOk(s'.rows, s'.nextId, s'.issued, s'.ledger.enrolled, s'.enrolments[other])
    {
      if other != tx {
        assert EnrolmentOk(s.rows, s.nextId, s.issued, s.ledger.enrolled, s.enrolments[other]);
      }
    }
    forall a, b | a in s'.enrolments && b in s'.enrolments && a != b
      ensures Distinct(s'.enrolments[a], s'.enrolments[b])
    {
      if a != tx && b != tx {
        assert Distinct(s.enrolments[a], s.enrolments[b]);
      } else {
        var other := if a == tx then b else a;
        assert EnrolmentOk(s.rows, s.nextId, s.issued, s.ledger.enrolled, s.enrolments[other]);
      }
    }
  }

  lemma EnrolBeginKeepsRest(cfg: Config, s: System, tx: int, event: NewEvent)
    requires Inv(cfg, s) && Enabled(cfg, s, EnrolBegin(tx, event))
    ensures var s' := Apply(cfg, s, EnrolBegin(tx, event));
      RowsOk(cfg, s'.rows, s'.nextId) && LedgerOk(s'.rows, s'.nextId, s'.issued, s'.ledger)
  {
  }

  lemma InsertKeepsRows(cfg: Config, rows: Table, nextId: nat, row: Row)
    requires RowsOk(cfg, rows, nextId)
    requires row.id < nextId && row.id !in rows && CommittedRow(cfg, row)
    requires forall id :: id in rows ==>
      rows[id].taskLogId != row.taskLogId && rows[id].message.eventId != row.message.eventId
    ensures RowsOk(cfg, rows[row.id := row], nextId)
  {
  }

  lemma EnrolCommitKeepsRows(cfg: Config, s: System, tx: int)
    requires Inv(cfg, s) && tx in s.enrolments
    ensures RowsOk(cfg, ApplyEnrolCommit(s, tx).rows, s.nextId)
  {
    var row := s.enrolments[tx];
    assert EnrolmentOk(s.rows, s.nextId, s.issued, s.ledger.enrolled, row);
    forall id | id in s.rows
      ensures s.rows[id].message.eventId != row.message.eventId
    {
      assert RowRecorded(s.ledger, id, s.rows[id]);
    }
    InsertKeepsRows(cfg, s.rows, s.nextId, row);
  }

  lemma EnrolCommitKeepsEnrolments(cfg: Config, s: System, tx: int)
    requires Inv(cfg, s) && tx in s.enrolments
    ensures var s' := ApplyEnrolCommit(s, tx);
      EnrolmentsOk(s'.rows, s'.nextId, s'.issued, s'.ledger.enrolled, s'.enrolments)
  {
  }

  lemma EnrolCommitKeepsTransactions(cfg: Config, s: System, tx: int)
    requires Inv(cfg, s) && tx in s.enrolments
    ensures var s' := ApplyEnrolCommit(s, tx);
      TransactionsOk(cfg, s'.rows, s'.now, s'.publishers)
  {
    var s' := ApplyEnrolCommit(s, tx);
    assert EnrolmentOk(s.rows, s.nextId, s.issued, s.ledger.enrolled, s.enrolments[tx]);
    forall p | p in s'.publishers
      ensures TxOk(cfg, s'.rows, s'.now, p, s'.publishers[p])
    {
      assert TxOk(cfg, s.rows, s.now, p, s.publishers[p]);
    }
  }

  lemma InsertKeepsLedger(rows: Table, nextId: nat, issued: set<int>, l: Ledger, row: Row)
    requires LedgerOk(rows, nextId, issued, l)
    requires EnrolmentOk(rows, nextId, issued, l.enrolled, row)
    ensures LedgerOk(rows[row.id := row], nextId, issued, l.(enrolled := l.enrolled[row.id := row.message]))
  {
  }

  lemma EnrolCommitKeepsTraffic(cfg: Config, s: System, tx: int)
    requires Inv(cfg, s) && tx in s.enrolments
    ensures var s' := ApplyEnrolCommit(s, tx);
      TrafficOk(s'.publishers, s'.ledger, s'.traffic)
  {
    var s' := ApplyEnrolCommit(s, tx);
    var row, log := s.enrolments[tx], s.traffic.log;
    assert EnrolmentOk(s.rows, s.nextId, s.issued, s.ledger.enrolled, row);
    forall i | 0 <= i < |log|
      ensures log[i].eventId != row.message.eventId && IsEnrolled(s'.ledger, log[i])
    {
      assert IsEnrolled(s.ledger, log[i]);
      var id :| id in s.ledger.enrolled && s.ledger.enrolled[id] == log[i];
      assert s'.ledger.enrolled[id] == log[i];
    }
    UnseenNeverArrived(log, row.message.eventId);
    forall id | id in s'.ledger.enrolled
      ensures Accounted(s'.publishers, s'.ledger, s'.traffic, id)
    {
      if id == row.id {
        forall p | p in s.publishers
          ensures !AcceptedInFlight(s.publishers[p], id)
        {
          assert TxOk(cfg, s.rows, s.now, p, s.publishers[p]);
        }
      } else {
        assert Accounted(s.publishers, s.ledger, s.traffic, id);
      }
    }
  }

  // ---------------------------------------------------------------------------
  // A publisher's own steps
  // ---------------------------------------------------------------------------

  lemma ClaimKeepsInv(cfg: Config, s: System, p: string, batch: seq<nat>)
    requires Inv(cfg, s) && Enabled(cfg, s, Claim(p, batch))
    ensures Inv(cfg, ApplyClaim(cfg, s, p, batch))
  {
    var s' := ApplyClaim(cfg, s, p, batch);
    ClaimKeepsTransactions(cfg, s, p, batch);
    ClaimKeepsLocks(cfg, s, p, batch);
    SameInFlight(s.publishers, s'.publishers, p);
    TrafficCarriesOver(s, s');
  }

  lemma ClaimKeepsTransactions(cfg: Config, s: System, p: string, batch: seq<nat>)
    requires TransactionsOk(cfg, s.rows, s.now, s.publishers) && Enabled(cfg, s, Claim(p, batch))
    ensures TransactionsOk(cfg, s.rows, s.now, ApplyClaim(cfg, s, p, batch).publishers)
  {
  }

  lemma ClaimKeepsLocks(cfg: Config, s: System, p: string, batch: seq<nat>)
    requires LocksDisjoint(s.publishers) && Enabled(cfg, s, Claim(p, batch))
    ensures LocksDisjoint(ApplyClaim(cfg, s, p, batch).publishers)
  {
  }

  /** A step of `p` that neither starts nor ends an accepted send leaves every count in flight. */
  lemma SameInFlight(before: map<string, Publisher>, after: map<string, Publisher>, p: string)
    requires before.Keys == after.Keys && p in before
    requires forall q :: q in before && q != p ==> after[q] == before[q]
    requires forall id :: AcceptedInFlight(after[p], id) <==> AcceptedInFlight(before[p], id)
    ensures forall id :: InFlight(after, id) == InFlight(before, id)
  {
  }

  lemma TrafficCarriesOver(s: System, s': System)
    requires TrafficOk(s.publishers, s.ledger, s.traffic)
    requires s'.ledger == s.ledger && s'.traffic == s.traffic
    requires forall id :: InFlight(s'.publishers, id) == InFlight(s.publishers, id)
    ensures TrafficOk(s'.publishers, s'.ledger, s'.traffic)
  {
  }

  /** No other transaction has row `id` in flight while `p` holds it. */
  lemma OnlyHolderInFlight(publishers: map<string, Publisher>, p: string, id: nat)
    requires LocksDisjoint(publishers) && p in publishers && Holds(publishers[p], id)
    ensures forall q :: q in publishers && q != p ==> !AcceptedInFlight(publishers[q], id)
    ensures InFlight(publishers, id) == if AcceptedInFlight(publishers[p], id) then 1 else 0
  {
  }

  /** A change of `p` alone cannot affect the in-flight count of a row `p` is not sending. */
  lemma OthersInFlight(before: map<string, Publisher>, after: map<string, Publisher>, p: string, id: nat)
    requires before.Keys == after.Keys && p in before
    requires forall q :: q in before && q != p ==> after[q] == before[q]
    requires !AcceptedInFlight(before[p], id) && !AcceptedInFlight(after[p], id)
    ensures InFlight(after, id) == InFlight(before, id)
  {
  }

  lemma SendKeepsInv(cfg: Config, s: System, p: string, outcome: BrokerOutcome)
    requires Inv(cfg, s) && OpenTx(s, p) && s.publishers[p].phase.Claimed?
    ensures Inv(cfg, ApplySend(s, p, outcome))
  {
    SendKeepsTransactions(cfg, s, p, outcome);
    SendKeepsTraffic(cfg, s, p, outcome);
  }

  lemma SendKeepsTransactions(cfg: Config, s: System, p: string, outcome: BrokerOutcome)
    requires TransactionsOk(cfg, s.rows, s.now, s.publishers) && LocksDisjoint(s.publishers)
    requires OpenTx(s, p) && s.publishers[p].phase.Claimed?
    ensures var after := ApplySend(s, p, outcome).publishers;
      TransactionsOk(cfg, s.rows, s.now, after) && LocksDisjoint(after)
  {
  }

  lemma SendKeepsTraffic(cfg: Config, s: System, p: string, outcome: BrokerOutcome)
    requires Inv(cfg, s) && OpenTx(s, p) && s.publishers[p].phase.Claimed?
    ensures var s' := ApplySend(s, p, outcome);
      TrafficOk(s'.publishers, s'.ledger, s'.traffic)
  {
    var s' := ApplySend(s, p, outcome);
    var head := s.publishers[p].batch[0];
    HeadIsEnrolled(cfg, s, p);
    forall id | id in s'.ledger.enrolled
      ensures Accounted(s'.publishers, s'.ledger, s'.traffic, id)
    {
      if id == head {
        SendAccountsForHead(cfg, s, p, outcome);
      } else {
        SendAccountsForOthers(cfg, s, p, outcome, id);
      }
    }
    forall i | 0 <= i < |s'.traffic.log|
      ensures IsEnrolled(s'.ledger, s'.traffic.log[i])
    {
      if i < |s.traffic.log| {
        assert IsEnrolled(s.ledger, s.traffic.log[i]);
      }
    }
  }

  lemma HeadIsEnrolled(cfg: Config, s: System, p: string)
    requires Inv(cfg, s) && OpenTx(s, p)
    ensures var tx := s.publishers[p];
      && tx.batch[0] in s.rows && s.rows[tx.batch[0]].status == Pending
      && tx.batch[0] in s.ledger.enrolled && s.ledger.enrolled[tx.batch[0]] == tx.row.message
      && RowRecorded(s.ledger, tx.batch[0], s.rows[tx.batch[0]])
      && Holds(tx, tx.batch[0])
  {
  }

  lemma SendAccountsForHead(cfg: Config, s: System, p: string, outcome: BrokerOutcome)
    requires Inv(cfg, s) && OpenTx(s, p) && s.publishers[p].phase.Claimed?
    ensures var s', head := ApplySend(s, p, outcome), s.publishers[p].batch[0];
      head in s'.ledger.enrolled && Accounted(s'.publishers, s'.ledger, s'.traffic, head)
  {
    hide RowsOk, EnrolmentsOk, TransactionsOk, LocksDisjoint;
    var s' := ApplySend(s, p, outcome);
    var tx := s.publishers[p];
    var head := tx.batch[0];
    HeadIsEnrolled(cfg, s, p);
    assert Accounted(s.publishers, s.ledger, s.traffic, head);
    ArrivedAfter(s.traffic.log, tx.row.message, tx.row.message.eventId);
    OnlyHolderInFlight(s.publishers, p, head);
    if outcome.Accepted? {
      assert AcceptedInFlight(s'.publishers[p], head);
    } else {
      OthersInFlight(s.publishers, s'.publishers, p, head);
    }
  }

  lemma SendAccountsForOthers(cfg: Config, s: System, p: string, outcome: BrokerOutcome, id: nat)
    requires Inv(cfg, s) && OpenTx(s, p) && s.publishers[p].phase.Claimed?
    requires id in s.ledger.enrolled && id != s.publishers[p].batch[0]
    ensures var s' := ApplySend(s, p, outcome);
      Accounted(s'.publishers, s'.ledger, s'.traffic, id)
  {
    hide RowsOk, EnrolmentsOk, TransactionsOk, LocksDisjoint;
    var s' := ApplySend(s, p, outcome);
    HeadIsEnrolled(cfg, s, p);
    assert Accounted(s.publishers, s.ledger, s.traffic, id);
    ArrivedAfter(s.traffic.log, s.publishers[p].row.message, s.ledger.enrolled[id].eventId);
    OthersInFlight(s.publishers, s'.publishers, p, id);
  }

  lemma MarkKeepsInv(cfg: Config, s: System, p: string)
    requires Inv(cfg, s) && OpenTx(s, p) && s.publishers[p].phase.Sent?
    ensures Inv(cfg, ApplyMark(cfg, s, p))
  {
    hide RowsOk, EnrolmentsOk, LedgerOk, MarkRow;
    var s' := ApplyMark(cfg, s, p);
    MarkKeepsTransactions(cfg, s, p);
    SameInFlight(s.publishers, s'.publishers, p);
    TrafficCarriesOver(s, s');
  }

  lemma MarkKeepsTransactions(cfg: Config, s: System, p: string)
    requires TransactionsOk(cfg, s.rows, s.now, s.publishers) && LocksDisjoint(s.publishers)
    requires OpenTx(s, p) && s.publishers[p].phase.Sent?
    ensures var after := ApplyMark(cfg, s, p).publishers;
      TransactionsOk(cfg, s.rows, s.now, after) && LocksDisjoint(after)
  {
  }

  lemma CrashKeepsInv(cfg: Config, s: System, p: string)
    requires Inv(cfg, s) && OpenTx(s, p)
    ensures Inv(cfg, ApplyCrash(s, p))
  {
    hide RowsOk, EnrolmentsOk, LedgerOk, TrafficOk;
    var s' := ApplyCrash(s, p);
    forall q | q in s'.publishers
      ensures TxOk(cfg, s'.rows, s'.now, q, s'.publishers[q])
    {
      assert TxOk(cfg, s.rows, s.now, q, s.publishers[q]);
    }
    forall q, id | q in s.publishers && Holds(s'.publishers[q], id)
      ensures Holds(s.publishers[q], id)
    {
    }
    CrashKeepsTraffic(cfg, s, p);
  }

  lemma CrashKeepsTraffic(cfg: Config, s: System, p: string)
    requires Inv(cfg, s) && OpenTx(s, p)
    ensures var s' := ApplyCrash(s, p);
      TrafficOk(s'.publishers, s'.ledger, s'.traffic)
  {
    hide RowsOk, EnrolmentsOk, TransactionsOk, LedgerOk, LocksDisjoint;
    var s' := ApplyCrash(s, p);
    var head := s.publishers[p].batch[0];
    HeadIsEnrolled(cfg, s, p);
    forall id | id in s'.ledger.enrolled
      ensures Accounted(s'.publishers, s'.ledger, s'.traffic, id)
    {
      assert Accounted(s.publishers, s.ledger, s.traffic, id);
      if AcceptedInFlight(s.publishers[p], id) {
        OnlyHolderInFlight(s.publishers, p, head);
        assert InFlight(s'.publishers, id) == 0;
      } else {
        OthersInFlight(s.publishers, s'.publishers, p, id);
      }
    }
  }

  // ---------------------------------------------------------------------------
  // Commit
  // ---------------------------------------------------------------------------

  /** What a commit writes over the committed head. */
  lemma CommittedMark(cfg: Config, s: System, p: string)
    requires Inv(cfg, s) && OpenTx(s, p) && s.publishers[p].phase.Marked?
    ensures var tx := s.publishers[p]; var head := tx.batch[0];
      && head in s.rows && s.rows[head].status == Pending && s.rows[head].nextAttemptAt <= tx.claimedAt <= s.now
      && (tx.row.id, tx.row.message, tx.row.taskLogId)
           == (s.rows[head].id, s.rows[head].message, s.rows[head].taskLogId)
      && CommittedRow(cfg, tx.row)
      && CanTransition(Pending, Publishing) && CanTransition(Publishing, tx.row.status)
      && (tx.row.status == Published <==> tx.phase.outcome.Accepted?)
      && (tx.row.status == Pending ==>
            && tx.row.attemptCount == s.rows[head].attemptCount + 1
            && tx.row.nextAttemptAt >= tx.claimedAt + 5 * SECOND)
      && (tx.row.status != Pending ==> tx.row.attemptCount == s.rows[head].attemptCount)
  {
    var tx := s.publishers[p];
    assert TxOk(cfg, s.rows, s.now, p, tx);
    var claimed := ClaimRow(s.rows[tx.batch[0]], p, cfg.leaseSeconds, tx.claimedAt);
    MarkRowShape(cfg, claimed, tx.phase.outcome, tx.row.updatedAt);
  }

  lemma RewriteKeepsRows(cfg: Config, rows: Table, nextId: nat, id: nat, row: Row)
    requires RowsOk(cfg, rows, nextId) && id in rows && CommittedRow(cfg, row)
    requires (row.id, row.message, row.taskLogId) == (rows[id].id, rows[id].message, rows[id].taskLogId)
    ensures RowsOk(cfg, rows[id := row], nextId)
  {
  }

  lemma RewriteKeepsEnrolments(
    rows: Table, nextId: nat, issued: set<int>, enrolled: map<nat, Message>, enrolments: map<int, Row>,
    id: nat, row: Row)
    requires EnrolmentsOk(rows, nextId, issued, enrolled, enrolments)
    requires id in rows && row.taskLogId == rows[id].taskLogId
    ensures EnrolmentsOk(rows[id := row], nextId, issued, enrolled, enrolments)
  {
  }

  lemma CommitKeepsTransactions(cfg: Config, s: System, p: string)
    requires Inv(cfg, s) && OpenTx(s, p) && s.publishers[p].phase.Marked?
    ensures var s' := ApplyCommit(cfg, s, p);
      TransactionsOk(cfg, s'.rows, s'.now, s'.publishers) && LocksDisjoint(s'.publishers)
  {
    var s' := ApplyCommit(cfg, s, p);
    var head := s.publishers[p].batch[0];
    assert Holds(s.publishers[p], head);
    forall q | q in s'.publishers
      ensures TxOk(cfg, s'.rows, s'.now, q, s'.publishers[q])
    {
      assert TxOk(cfg, s.rows, s.now, q, s.publishers[q]);
      if q != p && s.publishers[q].InTx? {
        var batch := s.publishers[q].batch;
        assert !Holds(s.publishers[q], head);
        assert forall i :: 0 <= i < |batch| ==> batch[i] != head;
      }
    }
    forall q, id | q in s.publishers && Holds(s'.publishers[q], id)
      ensures Holds(s.publishers[q], id)
    {
    }
  }

  lemma RewriteKeepsLedger(rows: Table, nextId: nat, issued: set<int>, l: Ledger, id: nat, row: Row)
    requires LedgerOk(rows, nextId, issued, l)
    requires id in rows && rows[id].status == Pending && row.message == rows[id].message
    requires row.attemptCount == rows[id].attemptCount + (if row.status == Pending then 1 else 0)
    ensures LedgerOk(rows[id := row], nextId, issued, Settle(l, id, row))
  {
    var rows', l' := rows[id := row], Settle(l, id, row);
    assert rows'.Keys == rows.Keys;
    assert RowRecorded(l, id, rows[id]);
    forall other | other in rows'
      ensures RowRecorded(l', other, rows'[other])
    {
      assert RowRecorded(l, other, rows[other]);
    }
  }

  lemma CommitAccounts(cfg: Config, s: System, p: string, id: nat)
    requires Inv(cfg, s) && OpenTx(s, p) && s.publishers[p].phase.Marked? && id in s.ledger.enrolled
    ensures var s' := ApplyCommit(cfg, s, p);
      Accounted(s'.publishers, s'.ledger, s'.traffic, id)
  {
    hide RowsOk, EnrolmentsOk, TransactionsOk, LocksDisjoint, LedgerOk, CommittedRow, CanTransition;
    var s' := ApplyCommit(cfg, s, p);
    var head := s.publishers[p].batch[0];
    CommittedMark(cfg, s, p);
    HeadIsEnrolled(cfg, s, p);
    assert Accounted(s.publishers, s.ledger, s.traffic, id);
    if AcceptedInFlight(s.publishers[p], id) {
      OnlyHolderInFlight(s.publishers, p, head);
      assert id == head && InFlight(s'.publishers, id) == 0;
    } else {
      OthersInFlight(s.publishers, s'.publishers, p, id);
    }
  }

  lemma CommitKeepsTraffic(cfg: Config, s: System, p: string)
    requires Inv(cfg, s) && OpenTx(s, p) && s.publishers[p].phase.Marked?
    ensures var s' := ApplyCommit(cfg, s, p);
      TrafficOk(s'.publishers, s'.ledger, s'.traffic)
  {
    hide RowsOk, EnrolmentsOk, TransactionsOk, LocksDisjoint, Accounted;
    var s' := ApplyCommit(cfg, s, p);
    forall id | id in s'.ledger.enrolled
      ensures Accounted(s'.publishers, s'.ledger, s'.traffic, id)
    {
      CommitAccounts(cfg, s, p, id);
    }
    forall i | 0 <= i < |s'.traffic.log|
      ensures IsEnrolled(s'.ledger, s'.traffic.log[i])
    {
      assert IsEnrolled(s.ledger, s.traffic.log[i]);
    }
  }

  // ---------------------------------------------------------------------------
  // Cleanup
  // ---------------------------------------------------------------------------

  lemma CleanupKeepsRowsAndEnrolments(cfg: Config, s: System, olderThan: Instant)
    requires Inv(cfg, s)
    ensures var s' := ApplyCleanup(s, olderThan);
      && RowsOk(cfg, s'.rows, s'.nextId)
      && EnrolmentsOk(s'.rows, s'.nextId, s'.issued, s'.ledger.enrolled, s'.enrolments)
  {
    var s' := ApplyCleanup(s, olderThan);
    forall tx | tx in s'.enrolments
      ensures EnrolmentOk(s'.rows, s'.nextId, s'.issued, s'.ledger.enrolled, s'.enrolments[tx])
    {
      assert EnrolmentOk(s.rows, s.nextId, s.issued, s.ledger.enrolled, s.enrolments[tx]);
    }
  }

  lemma CleanupKeepsTransactions(cfg: Config, s: System, olderThan: Instant)
    requires Inv(cfg, s)
    ensures var s' := ApplyCleanup(s, olderThan);
      TransactionsOk(cfg, s'.rows, s'.now, s'.publishers)
  {
    var s' := ApplyCleanup(s, olderThan);
    forall q | q in s'.publishers
      ensures TxOk(cfg, s'.rows, s'.now, q, s'.publishers[q])
    {
      assert TxOk(cfg, s.rows, s.now, q, s.publishers[q]);
    }
  }

  lemma CleanupKeepsLedger(cfg: Config, s: System, olderThan: Instant)
    requires Inv(cfg, s)
    ensures var s' := ApplyCleanup(s, olderThan);
      LedgerOk(s'.rows, s'.nextId, s'.issued, s'.ledger)
  {
    var s' := ApplyCleanup(s, olderThan);
    forall id | id in s.rows
      ensures RowRecorded(s'.ledger, id, s.rows[id])
    {
      assert RowRecorded(s.ledger, id, s.rows[id]);
    }
  }

  lemma CleanupKeepsTraffic(cfg: Config, s: System, olderThan: Instant)
    requires Inv(cfg, s)
    ensures var s' := ApplyCleanup(s, olderThan);
      TrafficOk(s'.publishers, s'.ledger, s'.traffic)
  {
  }

  // ---------------------------------------------------------------------------
  // Every step, every run
  // ---------------------------------------------------------------------------

  /** The invariant holds after every step of every publisher and business transaction. */
  lemma StepKeepsInv(cfg: Config, s: System, step: Step)
    requires Inv(cfg, s) && Enabled(cfg, s, step)
    ensures Inv(cfg, Apply(cfg, s, step))
  {
    match step {
      case Tick(to) => TickKeepsTransactions(cfg, s, to);
      case EnrolBegin(tx, event) =>
        EnrolBeginKeepsEnrolments(cfg, s, tx, event);
        EnrolBeginKeepsRest(cfg, s, tx, event);
      case EnrolCommit(tx) =>
        EnrolCommitKeepsRows(cfg, s, tx);
        EnrolCommitKeepsEnrolments(cfg, s, tx);
        EnrolCommitKeepsTransactions(cfg, s, tx);
        assert EnrolmentOk(s.rows, s.nextId, s.issued, s.ledger.enrolled, s.enrolments[tx]);
        InsertKeepsLedger(s.rows, s.nextId, s.issued, s.ledger, s.enrolments[tx]);
        EnrolCommitKeepsTraffic(cfg, s, tx);
      case EnrolRollback(tx) => EnrolRollbackKeepsEnrolments(cfg, s, tx);
      case Claim(p, batch) => ClaimKeepsInv(cfg, s, p, batch);
      case Send(p, outcome) => SendKeepsInv(cfg, s, p, outcome);
      case Mark(p) => MarkKeepsInv(cfg, s, p);
      case Commit(p) => CommitKeepsInv(cfg, s, p);
      case Crash(p) => CrashKeepsInv(cfg, s, p);
      case Cleanup(olderThan) =>
        CleanupKeepsRowsAndEnrolments(cfg, s, olderThan);
        CleanupKeepsTransactions(cfg, s, olderThan);
        CleanupKeepsLedger(cfg, s, olderThan);
        CleanupKeepsTraffic(cfg, s, olderThan);
    }
  }

  lemma TickKeepsTransactions(cfg: Config, s: System, to: Instant)
    requires TransactionsOk(cfg, s.rows, s.now, s.publishers) && s.now <= to
    ensures TransactionsOk(cfg, s.rows, to, s.publishers)
  {
  }

  lemma EnrolRollbackKeepsEnrolments(cfg: Config, s: System, tx: int)
    requires Inv(cfg, s)
    ensures EnrolmentsOk(s.rows, s.nextId, s.issued, s.ledger.enrolled, s.enrolments - {tx})
  {
  }

  lemma CommitKeepsInv(cfg: Config, s: System, p: string)
    requires Inv(cfg, s) && OpenTx(s, p) && s.publishers[p].phase.Marked?
    ensures Inv(cfg, ApplyCommit(cfg, s, p))
  {
    var tx := s.publishers[p];
    CommittedMark(cfg, s, p);
    RewriteKeepsRows(cfg, s.rows, s.nextId, tx.batch[0], tx.row);
    RewriteKeepsEnrolments(s.rows, s.nextId, s.issued, s.ledger.enrolled, s.enrolments, tx.batch[0], tx.row);
    CommitKeepsTransactions(cfg, s, p);
    RewriteKeepsLedger(s.rows, s.nextId, s.issued, s.ledger, tx.batch[0], tx.row);
    CommitKeepsTraffic(cfg, s, p);
  }
}
