/** Bounded overtaking: with one publisher, the rows that can still go before an eligible row
    only become fewer, so the row is processed after at most that many committed polls. */
module OutboxOvertaking {
  import opened Outcomes
  import opened OutboxStates
  import opened OutboxRows
  import opened RetryPolicy
  import opened OutboxRepository
  import opened OutboxProtocol
  import opened OutboxSafety
  import OutboxGuarantees
  import OutboxProgress

  /** The pending rows, committed or about to be, that `ORDER BY next_attempt_at, id` puts
      before row `r`. */
  ghost function Ahead(rows: Table, enrolments: map<int, Row>, r: Row): set<nat> {
    (set id | id in rows.Keys && rows[id].status == Pending && Before(rows[id], r))
    + (set tx | tx in enrolments.Keys && Before(enrolments[tx], r) :: enrolments[tx].id)
  }

  /** Row `r` is waiting, it is due, and `p` is the only publisher. */
  ghost predicate Waiting(s: System, p: string, r: nat) {
    s.publishers.Keys == {p} && Eligible(s.rows, r, s.now)
  }

  /** The publisher is not working on a row that it claimed while `r` was still out of sight. */
  ghost predicate Watched(s: System, p: string, r: nat)
    requires r in s.rows
  {
    p in s.publishers && s.publishers[p].InTx? ==>
      var tx := s.publishers[p];
      && tx.batch != [] && tx.batch[0] in s.rows
      && s.rows[r].nextAttemptAt <= tx.claimedAt
      && (tx.batch[0] == r || Before(s.rows[tx.batch[0]], s.rows[r]))
  }

  predicate Processes(s: System, step: Step, r: nat) {
    step.Commit? && OpenTx(s, step.p) && s.publishers[step.p].batch[0] == r
  }

  lemma EnrolmentsAreNew(cfg: Config, s: System, id: nat)
    requires Inv(cfg, s) && id in s.rows
    ensures forall tx :: tx in s.enrolments ==> s.enrolments[tx].id != id
  {
  }

  /** Nothing but its own processing touches a waiting row. */
  lemma StaysWaiting(cfg: Config, s: System, step: Step, p: string, r: nat)
    requires Inv(cfg, s) && Enabled(cfg, s, step) && Waiting(s, p, r) && !Processes(s, step, r)
    ensures var s' := Apply(cfg, s, step);
      Waiting(s', p, r) && s'.rows[r] == s.rows[r]
  {
    hide Inv, IsBatch, ClaimRow, MarkRow;
    if step.EnrolCommit? {
      EnrolmentsAreNew(cfg, s, r);
    }
  }

  lemma CommitKeepsAhead(cfg: Config, s: System, p: string, r: nat)
    requires Inv(cfg, s) && OpenTx(s, p) && s.publishers[p].phase.Marked?
    requires Waiting(s, p, r) && s.publishers[p].batch[0] != r
    ensures var s' := ApplyCommit(cfg, s, p);
      && Ahead(s'.rows, s'.enrolments, s.rows[r]) <= Ahead(s.rows, s.enrolments, s.rows[r])
      && (Watched(s, p, r) ==>
            && s.publishers[p].batch[0] in Ahead(s.rows, s.enrolments, s.rows[r])
            && s.publishers[p].batch[0] !in Ahead(s'.rows, s'.enrolments, s.rows[r]))
  {
    hide Inv, CommittedRow, Settle, Delta, Merge, CanTransition;
    CommittedMark(cfg, s, p);
    EnrolmentsAreNew(cfg, s, s.publishers[p].batch[0]);
  }

  /** No step lets a row slip in before a waiting one: enrolments are stamped with the current
      time and a larger id, and retries are sent behind. */
  lemma AheadShrinks(cfg: Config, s: System, step: Step, p: string, r: nat)
    requires Inv(cfg, s) && Enabled(cfg, s, step) && Waiting(s, p, r) && !Processes(s, step, r)
    ensures var s' := Apply(cfg, s, step);
      Ahead(s'.rows, s'.enrolments, s.rows[r]) <= Ahead(s.rows, s.enrolments, s.rows[r])
  {
    match step {
      case Commit(q) => CommitKeepsAhead(cfg, s, q, r);
      case _ =>
    }
  }

  /** A poll claims the waiting row itself unless some row ahead of it is due. */
  lemma ClaimTakesAhead(cfg: Config, s: System, p: string, batch: seq<nat>, r: nat)
    requires Waiting(s, p, r) && Enabled(cfg, s, Claim(p, batch))
    ensures batch[0] in s.rows && s.rows[r].nextAttemptAt <= s.now
    ensures batch[0] == r || Before(s.rows[batch[0]], s.rows[r])
  {
  }

  lemma StaysWatched(cfg: Config, s: System, step: Step, p: string, r: nat)
    requires Inv(cfg, s) && Enabled(cfg, s, step) && Waiting(s, p, r) && !Processes(s, step, r)
    requires Watched(s, p, r)
    ensures var s' := Apply(cfg, s, step);
      r in s'.rows && Watched(s', p, r)
  {
    hide Inv, MarkRow, ClaimRow, IsBatch;
    StaysWaiting(cfg, s, step, p, r);
    if step.Claim? {
      ClaimTakesAhead(cfg, s, p, step.batch, r);
    } else if OpenTx(s, p) && !step.Commit? {
      HeadStays(cfg, s, step, p);
    }
  }

  /** A locked row survives every step but its own commit, which ends the transaction. */
  lemma HeadStays(cfg: Config, s: System, step: Step, p: string)
    requires Inv(cfg, s) && Enabled(cfg, s, step) && OpenTx(s, p) && s.publishers.Keys == {p} && !step.Commit?
    ensures var s' := Apply(cfg, s, step); var head := s.publishers[p].batch[0];
      head in s.rows && head in s'.rows && s'.rows[head] == s.rows[head]
  {
    assert TxOk(cfg, s.rows, s.now, p, s.publishers[p]);
    hide Inv, MarkRow, ClaimRow, IsBatch;
  }

  /** Along the run, row `r` is never the row that a commit processes. */
  ghost predicate PassedOver(cfg: Config, s: System, steps: seq<Step>, r: nat)
    requires Runnable(cfg, s, steps)
    decreases |steps|
  {
    steps == [] || (!Processes(s, steps[0], r) && PassedOver(cfg, Apply(cfg, s, steps[0]), steps[1..], r))
  }

  /** While a due row is passed over, every committed poll uses up one of the rows that were
      ahead of it at the start, whatever is enrolled, retried, crashed or cleaned up meanwhile. */
  lemma {:induction false} OvertakingIsBounded(cfg: Config, s: System, steps: seq<Step>, p: string, r: nat)
    requires Inv(cfg, s) && Waiting(s, p, r) && Watched(s, p, r)
    requires Runnable(cfg, s, steps) && PassedOver(cfg, s, steps, r)
    ensures OutboxProgress.Commits(steps) <= |Ahead(s.rows, s.enrolments, s.rows[r])|
    decreases |steps|
  {
    if steps != [] {
      var s' := Apply(cfg, s, steps[0]);
      OvertakingStep(cfg, s, steps[0], p, r);
      OvertakingIsBounded(cfg, s', steps[1..], p, r);
    }
  }

  lemma OvertakingStep(cfg: Config, s: System, step: Step, p: string, r: nat)
    requires Inv(cfg, s) && Enabled(cfg, s, step) && Waiting(s, p, r) && !Processes(s, step, r)
    requires Watched(s, p, r)
    ensures var s' := Apply(cfg, s, step);
      && Inv(cfg, s') && Waiting(s', p, r) && Watched(s', p, r) && s'.rows[r] == s.rows[r]
      && |Ahead(s'.rows, s'.enrolments, s.rows[r])| + (if step.Commit? then 1 else 0)
           <= |Ahead(s.rows, s.enrolments, s.rows[r])|
  {
    hide Inv, Ahead;
    StepKeepsInv(cfg, s, step);
    StaysWaiting(cfg, s, step, p, r);
    StaysWatched(cfg, s, step, p, r);
    if step.Commit? {
      CommitShrinksAhead(cfg, s, p, r);
    } else {
      AheadShrinks(cfg, s, step, p, r);
      var s' := Apply(cfg, s, step);
      SubsetSize(Ahead(s'.rows, s'.enrolments, s.rows[r]), Ahead(s.rows, s.enrolments, s.rows[r]));
    }
  }

  lemma CommitShrinksAhead(cfg: Config, s: System, p: string, r: nat)
    requires Inv(cfg, s) && Waiting(s, p, r) && Watched(s, p, r)
    requires Enabled(cfg, s, Commit(p)) && !Processes(s, Commit(p), r)
    ensures var s' := ApplyCommit(cfg, s, p);
      |Ahead(s'.rows, s'.enrolments, s.rows[r])| < |Ahead(s.rows, s.enrolments, s.rows[r])|
  {
    hide Inv, Ahead;
    CommitKeepsAhead(cfg, s, p, r);
    var s' := ApplyCommit(cfg, s, p);
    SubsetSize(Ahead(s'.rows, s'.enrolments, s.rows[r]),
               Ahead(s.rows, s.enrolments, s.rows[r]) - {s.publishers[p].batch[0]});
  }

  /** From any reachable state, even with a poll under way that claimed its batch before the row
      came into sight, at most one more commit goes first. */
  lemma {:induction false} OvertakingFromAnyState(cfg: Config, s: System, steps: seq<Step>, p: string, r: nat)
    requires Inv(cfg, s) && Waiting(s, p, r)
    requires Runnable(cfg, s, steps) && PassedOver(cfg, s, steps, r)
    ensures OutboxProgress.Commits(steps) <= |Ahead(s.rows, s.enrolments, s.rows[r])| + 1
    decreases |steps|
  {
    hide Inv, Ahead;
    if Watched(s, p, r) {
      OvertakingIsBounded(cfg, s, steps, p, r);
    } else if steps != [] {
      var s' := Apply(cfg, s, steps[0]);
      StepKeepsInv(cfg, s, steps[0]);
      StaysWaiting(cfg, s, steps[0], p, r);
      AheadShrinks(cfg, s, steps[0], p, r);
      SubsetSize(Ahead(s'.rows, s'.enrolments, s.rows[r]), Ahead(s.rows, s.enrolments, s.rows[r]));
      if steps[0].Commit? {
        OvertakingIsBounded(cfg, s', steps[1..], p, r);
      } else {
        OvertakingFromAnyState(cfg, s', steps[1..], p, r);
      }
    }
  }

  lemma {:induction false} SubsetSize(a: set<nat>, b: set<nat>)
    requires a <= b
    ensures |a| <= |b|
  {
    if a != {} {
      var x :| x in a;
      SubsetSize(a - {x}, b - {x});
    }
  }
}
