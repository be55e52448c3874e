/** How a row begins and why it ends as it does: what enrolment writes, what a committed poll decides,
    and what every failed row has met. */
module OutboxOutcomes {
  import opened Outcomes
  import opened OutboxStates
  import opened OutboxRows
  import opened PayloadValidator
  import opened PayloadMeaning
  import opened RetryPolicy
  import opened OutboxRepository
  import opened OutboxProtocol
  import opened OutboxSafety
  import opened OutboxGuarantees

  // ---------------------------------------------------------------------------
  // Enrolment and claim
  // ---------------------------------------------------------------------------

  /** An event is emitted exactly for a registered task and an unused id, if nothing in its payload
      breaks a rule at the default depth of 8 and the stored copy has at most 32768 bytes. */
  lemma EmittableMeans(registry: set<string>, emitted: set<int>, command: Command, eventId: int, size: Value -> nat)
    ensures Emittable(registry, emitted, command, eventId, size) <==>
      && command.taskName in registry && eventId !in emitted
      && Flawless(ListValue(command.args), 1, 8) && Flawless(DictValue(command.kwargs), 1, 8)
      && size(Collapse(ListValue(command.args))) + size(Collapse(DictValue(command.kwargs))) <= 32768
  {
    AcceptableMeans(ListValue(command.args), 1, 8);
    AcceptableMeans(DictValue(command.kwargs), 1, 8);
    hide Acceptable, Flawless;
  }

  /** The JSON column takes the command exactly if nothing that it refuses occurs in either half. */
  lemma StorableCommandMeans(command: Command)
    ensures StorableCommand(command) <==>
      && (forall w, n: nat :: Occurs(w, ListValue(command.args), n) ==> !Refused(w))
      && (forall w, n: nat :: Occurs(w, DictValue(command.kwargs), n) ==> !Refused(w))
  {
    hide Storable, Refused;
    StorableMeans(ListValue(command.args));
    StorableMeans(DictValue(command.kwargs));
  }

  /** How the statements find their rows: an insert by task log, a mark by event id and status. In
      a keyed table each finds at most one. */
  lemma RowsAreFound(t: Table, taskLogId: int, eventId: int, row: Row)
    requires WellKeyed(t) && row.id in t && t[row.id] == row
    ensures row.taskLogId == taskLogId ==>
      && !IsSlot(t, taskLogId, Free)
      && (forall id :: IsSlot(t, taskLogId, HeldPending(id)) <==> id == row.id && row.status == Pending)
      && (IsSlot(t, taskLogId, HeldSettled) <==> row.status != Pending)
      && (HasPending(t, taskLogId) <==> row.status == Pending)
    ensures !IsSlot(t, taskLogId, Free) ==> exists id :: id in t && t[id].taskLogId == taskLogId
    ensures HasPending(t, taskLogId) || IsSlot(t, taskLogId, HeldSettled) ==> !IsSlot(t, taskLogId, Free)
    ensures row.message.eventId == eventId ==>
      forall id :: IsPublishing(t, id, eventId) <==> id == row.id && row.status == Publishing
  {
  }

  /** A new row can be claimed from the moment it was created on, and not before; nobody has
      claimed it, and it has all its attempts. */
  lemma NewRowIsDue(t: Table, event: NewEvent, id: nat, now: Instant)
    ensures var row := InitialRow(event, id);
      && (Eligible(t[id := row], id, now) <==> event.createdAt <= now)
      && row.id == id && row.message == event.message && row.taskLogId == event.taskLogId
      && row.dedupeKey == event.dedupeKey && row.attemptCount == 0
      && row.claimedBy == None && row.leaseExpiresAt == None && row.publishedAt == None && row.lastError == None
      && row.createdAt == row.updatedAt == event.createdAt
  {
  }

  /** A claim takes a due pending row out of everyone's reach while it is uncommitted, and changes
      nothing that the marks or the broker look at. */
  lemma ClaimDecides(t: Table, id: nat, claimedBy: string, leaseSeconds: int, now: Instant, later: Instant)
    requires id in t
    ensures var row := ClaimRow(t[id], claimedBy, leaseSeconds, now);
      && row == t[id].(status := Publishing, claimedBy := Some(claimedBy),
                       leaseExpiresAt := Some(now + leaseSeconds * 1_000_000), updatedAt := now)
      && !Eligible(t[id := row], id, later)
  {
  }

  // ---------------------------------------------------------------------------
  // The end
  // ---------------------------------------------------------------------------

  /** The broker's answer to the open poll of `p`, if its mark is written. */
  predicate Answered(s: System, p: string, id: nat, outcome: BrokerOutcome) {
    OpenTx(s, p) && s.publishers[p].phase == Marked(outcome) && s.publishers[p].batch[0] == id
  }

  /** A committed poll turns its pending row published on an accepted message, failed on an
      unregistered task or a last attempt, and otherwise pending again, one attempt on and due
      after its delay from the mark. */
  lemma CommitDecides(cfg: Config, s: System, p: string, id: nat, outcome: BrokerOutcome)
    requires Inv(cfg, s) && Answered(s, p, id, outcome)
    ensures id in s.rows && s.rows[id].status == Pending
    ensures var before, after, marked := s.rows[id], ApplyCommit(cfg, s, p).rows[id], s.publishers[p].row.updatedAt;
      && (after.status == Published <==> outcome.Accepted?)
      && (after.status == Failed <==>
            outcome.Raised? && (outcome.error == NotRegistered || before.attemptCount + 1 >= cfg.maxAttempts))
      && (after.status != Published && after.status != Failed ==>
            && after.status == Pending && after.attemptCount == before.attemptCount + 1
            && var delay := 5 * Pow2(before.attemptCount);
              after.nextAttemptAt == marked + (if delay < 300 then delay else 300) * 1_000_000)
      && (after.status == Failed ==> after.lastError == Some(outcome.text))
      && (after.status == Published ==> after.publishedAt == Some(marked))
      && s.publishers[p].claimedAt <= marked <= s.now
  {
    hide RowsOk, EnrolmentsOk, LocksDisjoint, LedgerOk, TrafficOk, MarkRow;
    assert TxOk(cfg, s.rows, s.now, p, s.publishers[p]);
    var claimed := ClaimRow(s.rows[id], p, cfg.leaseSeconds, s.publishers[p].claimedAt);
    MarkDecides(cfg, claimed, outcome, s.publishers[p].row.updatedAt);
  }

  /** What ends a row for good. */
  ghost predicate MeetsItsEnd(cfg: Config, s: System, step: Step, id: nat) {
    && step.Commit? && id in s.rows
    && exists outcome ::
         && Answered(s, step.p, id, outcome) && outcome.Raised?
         && (outcome.error == NotRegistered || s.rows[id].attemptCount + 1 >= cfg.maxAttempts)
  }

  predicate IsFailed(s: System, id: nat) {
    id in s.rows && s.rows[id].status == Failed
  }

  lemma StepFails(cfg: Config, s: System, step: Step, id: nat)
    requires Inv(cfg, s) && Enabled(cfg, s, step)
    requires !IsFailed(s, id) && IsFailed(Apply(cfg, s, step), id)
    ensures MeetsItsEnd(cfg, s, step, id)
  {
    if step.Commit? {
      var tx := s.publishers[step.p];
      CommitDecides(cfg, s, step.p, tx.batch[0], tx.phase.outcome);
      assert Answered(s, step.p, tx.batch[0], tx.phase.outcome);
    } else {
      OthersDoNotFail(cfg, s, step, id);
    }
  }

  lemma OthersDoNotFail(cfg: Config, s: System, step: Step, id: nat)
    requires Inv(cfg, s) && Enabled(cfg, s, step) && !step.Commit?
    ensures IsFailed(Apply(cfg, s, step), id) ==> IsFailed(s, id)
  {
    hide IsBatch, TrafficOk, TransactionsOk;
    if id in s.rows && id in Apply(cfg, s, step).rows {
      EnrolledRows(s, id);
      hide LedgerOk;
      OnlyCommitRewrites(cfg, s, step, id);
    }
  }

  lemma EnrolledRows(s: System, id: nat)
    requires LedgerOk(s.rows, s.nextId, s.issued, s.ledger) && id in s.rows
    ensures id in s.ledger.enrolled
  {
  }

  /** In every run, of any interleaving: a row that has failed met, at some committed poll, an
      unregistered task or the last of its attempts. */
  lemma {:induction false} FailedRowsMetTheirEnd(cfg: Config, s: System, steps: seq<Step>, id: nat) returns (k: nat)
    requires Inv(cfg, s) && Runnable(cfg, s, steps)
    requires !IsFailed(s, id) && IsFailed(After(cfg, s, steps), id)
    ensures k < |steps| && Runnable(cfg, s, steps[..k])
    ensures MeetsItsEnd(cfg, After(cfg, s, steps[..k]), steps[k], id)
    decreases |steps|
  {
    hide Enabled, Apply, Inv, MeetsItsEnd, IsFailed;
    var next := Apply(cfg, s, steps[0]);
    if IsFailed(next, id) {
      StepFails(cfg, s, steps[0], id);
      k := 0;
    } else {
      StepKeepsInv(cfg, s, steps[0]);
      k := FailedRowsMetTheirEnd(cfg, next, steps[1..], id);
      k := k + 1;
      assert steps[..k][1..] == steps[1..][..k - 1];
    }
  }
}
