/** The retry budget: every committed poll spends some of it, so polls without new enrolments
    come to an end, and they end with nothing pending. */
module OutboxProgress {
  import opened Outcomes
  import opened OutboxStates
  import opened OutboxRows
  import opened RetryPolicy
  import opened OutboxRepository
  import opened OutboxProtocol
  import opened OutboxSafety
  import OutboxGuarantees
  import OutboxPublisher

  // ---------------------------------------------------------------------------
  // The budget of a table
  // ---------------------------------------------------------------------------

  /** How many more committed polls a row can take: its remaining attempts. */
  function Weight(cfg: Config, row: Row): nat {
    if row.status != Pending then 0
    else if row.attemptCount < cfg.maxAttempts then cfg.maxAttempts - row.attemptCount
    else 1
  }

  function WeightAt(cfg: Config, rows: Table, id: nat): nat {
    if id in rows then Weight(cfg, rows[id]) else 0
  }

  function Budget(cfg: Config, rows: Table, n: nat): nat {
    if n == 0 then 0 else Budget(cfg, rows, n - 1) + WeightAt(cfg, rows, n - 1)
  }

  function Total(cfg: Config, s: System): nat {
    Budget(cfg, s.rows, s.nextId)
  }

  /** What one enrolment adds. */
  function FullBudget(cfg: Config): nat {
    if cfg.maxAttempts < 1 then 1 else cfg.maxAttempts
  }

  /** Tables that weigh the same everywhere but at `id` differ in total by that one weight. */
  lemma {:induction false} BudgetDiffersAt(cfg: Config, a: Table, b: Table, id: nat, n: nat)
    requires forall j :: j != id ==> WeightAt(cfg, a, j) == WeightAt(cfg, b, j)
    ensures Budget(cfg, b, n) - Budget(cfg, a, n)
         == if id < n then WeightAt(cfg, b, id) - WeightAt(cfg, a, id) else 0
  {
    if n > 0 {
      BudgetDiffersAt(cfg, a, b, id, n - 1);
    }
  }

  lemma {:induction false} BudgetCoversPending(cfg: Config, rows: Table, id: nat, n: nat)
    requires id < n && id in rows && rows[id].status == Pending
    ensures Budget(cfg, rows, n) >= Weight(cfg, rows[id]) >= 1
  {
    if id < n - 1 {
      BudgetCoversPending(cfg, rows, id, n - 1);
    }
  }

  lemma CommitSpends(cfg: Config, s: System, p: string)
    requires Inv(cfg, s) && OpenTx(s, p) && s.publishers[p].phase.Marked?
    ensures Total(cfg, ApplyCommit(cfg, s, p)) < Total(cfg, s)
  {
    var head, row := s.publishers[p].batch[0], s.publishers[p].row;
    CommittedMark(cfg, s, p);
    assert CommittedRow(cfg, row);
    BudgetDiffersAt(cfg, s.rows, s.rows[head := row], head, s.nextId);
  }

  lemma EnrolCommitAdds(cfg: Config, s: System, tx: int)
    requires Inv(cfg, s) && tx in s.enrolments
    ensures Total(cfg, ApplyEnrolCommit(s, tx)) == Total(cfg, s) + FullBudget(cfg)
  {
    var row := s.enrolments[tx];
    assert EnrolmentOk(s.rows, s.nextId, s.issued, s.ledger.enrolled, row);
    assert row.id !in s.rows;
    BudgetDiffersAt(cfg, s.rows, s.rows[row.id := row], row.id, s.nextId);
  }

  lemma CleanupIsFree(cfg: Config, s: System, olderThan: Instant)
    ensures Total(cfg, ApplyCleanup(s, olderThan)) == Total(cfg, s)
  {
    BudgetDiffersAt(cfg, s.rows, ApplyCleanup(s, olderThan).rows, s.nextId, s.nextId);
  }

  /** A committed poll spends at least one unit; only a committed enrolment adds any. */
  lemma StepBudget(cfg: Config, s: System, step: Step)
    requires Inv(cfg, s) && Enabled(cfg, s, step)
    ensures var before, after := Total(cfg, s), Total(cfg, Apply(cfg, s, step));
      && (step.Commit? ==> after < before)
      && (step.EnrolCommit? ==> after == before + FullBudget(cfg))
      && (!step.Commit? && !step.EnrolCommit? ==> after == before)
  {
    match step {
      case Commit(p) => CommitSpends(cfg, s, p);
      case EnrolCommit(tx) => EnrolCommitAdds(cfg, s, tx);
      case Cleanup(olderThan) => CleanupIsFree(cfg, s, olderThan);
      case _ => QuietStepIsFree(cfg, s, step);
    }
  }

  lemma QuietStepIsFree(cfg: Config, s: System, step: Step)
    requires s.nextId !in s.rows && Enabled(cfg, s, step)
    requires !step.Commit? && !step.EnrolCommit? && !step.Cleanup?
    ensures Total(cfg, Apply(cfg, s, step)) == Total(cfg, s)
  {
  }

  // ---------------------------------------------------------------------------
  // Runs
  // ---------------------------------------------------------------------------

  function Commits(steps: seq<Step>): nat {
    if steps == [] then 0 else (if steps[0].Commit? then 1 else 0) + Commits(steps[1..])
  }

  /** The budget that the rows enrolled along a run bring with them. */
  function Granted(cfg: Config, steps: seq<Step>): nat {
    if steps == [] then 0 else (if steps[0].EnrolCommit? then FullBudget(cfg) else 0) + Granted(cfg, steps[1..])
  }

  /** In every run, with any interleaving and any crashes, the number of committed polls is
      bounded by the budget at the start plus a full budget per row enrolled on the way. */
  lemma {:induction false} CommitsAreBounded(cfg: Config, s: System, steps: seq<Step>)
    requires Inv(cfg, s) && Runnable(cfg, s, steps)
    ensures Total(cfg, After(cfg, s, steps)) + Commits(steps) <= Total(cfg, s) + Granted(cfg, steps)
    decreases |steps|
  {
    hide Inv, Enabled, Apply, Total;
    if steps != [] {
      StepKeepsInv(cfg, s, steps[0]);
      StepBudget(cfg, s, steps[0]);
      CommitsAreBounded(cfg, Apply(cfg, s, steps[0]), steps[1..]);
    }
  }

  lemma {:induction false} RunsCompose(cfg: Config, s: System, a: seq<Step>, b: seq<Step>)
    requires Runnable(cfg, s, a) && Runnable(cfg, After(cfg, s, a), b)
    ensures Runnable(cfg, s, a + b)
    ensures After(cfg, s, a + b) == After(cfg, After(cfg, s, a), b)
    decreases |a|
  {
    hide Enabled, Apply;
    if a == [] {
      assert a + b == b;
    } else {
      RunsCompose(cfg, Apply(cfg, s, a[0]), a[1..], b);
      assert (a + b)[1..] == a[1..] + b;
    }
  }

  lemma {:induction false} CountsCompose(a: seq<Step>, b: seq<Step>)
    ensures Commits(a + b) == Commits(a) + Commits(b)
    ensures Answers(a + b) == Answers(a) + Answers(b)
  {
    if a == [] {
      assert a + b == b;
    } else {
      CountsCompose(a[1..], b);
      assert (a + b)[1..] == a[1..] + b;
    }
  }

  // ---------------------------------------------------------------------------
  // A poll
  // ---------------------------------------------------------------------------

  /** What the broker answered along a run. */
  function Answers(steps: seq<Step>): seq<BrokerOutcome> {
    if steps == [] then []
    else (if steps[0].Send? then [steps[0].outcome] else []) + Answers(steps[1..])
  }

  function PollSteps(claimTime: Instant, p: string, batch: seq<nat>, outcome: BrokerOutcome, markTime: Instant): seq<Step> {
    [Tick(claimTime), Claim(p, batch), Send(p, outcome), Tick(markTime), Mark(p), Commit(p)]
  }

  lemma Prepend(cfg: Config, s: System, step: Step, steps: seq<Step>)
    requires Enabled(cfg, s, step) && Runnable(cfg, Apply(cfg, s, step), steps)
    ensures Runnable(cfg, s, [step] + steps)
    ensures After(cfg, s, [step] + steps) == After(cfg, Apply(cfg, s, step), steps)
  {
  }

  /** The state after a successful poll, computed without the intermediate steps. */
  ghost function AfterPoll(
    cfg: Config, s: System, claimTime: Instant, p: string, batch: seq<nat>, outcome: BrokerOutcome, markTime: Instant)
    : System
    requires Enabled(cfg, s.(now := claimTime), Claim(p, batch))
  {
    var sent := ApplySend(ApplyClaim(cfg, s.(now := claimTime), p, batch), p, outcome);
    ApplyCommit(cfg, ApplyMark(cfg, sent.(now := markTime), p), p)
  }

  lemma FinishRuns(cfg: Config, s: System, p: string)
    requires OpenTx(s, p) && s.publishers[p].phase.Sent?
    ensures Runnable(cfg, s, [Mark(p), Commit(p)])
    ensures After(cfg, s, [Mark(p), Commit(p)]) == ApplyCommit(cfg, ApplyMark(cfg, s, p), p)
  {
    var marked := ApplyMark(cfg, s, p);
    hide ApplyMark, ApplyCommit;
    Prepend(cfg, marked, Commit(p), []);
    Prepend(cfg, s, Mark(p), [Commit(p)]);
    assert [Commit(p)] + [] == [Commit(p)];
    assert [Mark(p)] + [Commit(p)] == [Mark(p), Commit(p)];
  }

  lemma SendRuns(cfg: Config, s: System, p: string, outcome: BrokerOutcome, markTime: Instant)
    requires OpenTx(s, p) && s.publishers[p].phase.Claimed? && s.now <= markTime
    ensures var steps := [Send(p, outcome), Tick(markTime), Mark(p), Commit(p)];
      && Runnable(cfg, s, steps)
      && After(cfg, s, steps)
           == ApplyCommit(cfg, ApplyMark(cfg, ApplySend(s, p, outcome).(now := markTime), p), p)
  {
    var sent := ApplySend(s, p, outcome);
    var later := sent.(now := markTime);
    assert OpenTx(later, p) && later.publishers[p].phase.Sent? && sent.now == s.now;
    hide ApplySend, ApplyMark, ApplyCommit;
    FinishRuns(cfg, later, p);
    Prepend(cfg, sent, Tick(markTime), [Mark(p), Commit(p)]);
    Prepend(cfg, s, Send(p, outcome), [Tick(markTime)] + [Mark(p), Commit(p)]);
    assert [Send(p, outcome)] + ([Tick(markTime)] + [Mark(p), Commit(p)])
        == [Send(p, outcome), Tick(markTime), Mark(p), Commit(p)];
  }

  lemma PollRuns(
    cfg: Config, s: System, claimTime: Instant, p: string, batch: seq<nat>, outcome: BrokerOutcome, markTime: Instant)
    requires s.now <= claimTime <= markTime
    requires Enabled(cfg, s.(now := claimTime), Claim(p, batch))
    ensures var steps := PollSteps(claimTime, p, batch, outcome, markTime);
      Runnable(cfg, s, steps) && After(cfg, s, steps) == AfterPoll(cfg, s, claimTime, p, batch, outcome, markTime)
  {
    var ready := s.(now := claimTime);
    var claimed := ApplyClaim(cfg, ready, p, batch);
    assert OpenTx(claimed, p) && claimed.publishers[p].phase.Claimed? && claimed.now == claimTime;
    hide ApplyClaim, ApplySend, ApplyMark, ApplyCommit, IsBatch;
    var tail := [Send(p, outcome), Tick(markTime), Mark(p), Commit(p)];
    SendRuns(cfg, claimed, p, outcome, markTime);
    Prepend(cfg, ready, Claim(p, batch), tail);
    Prepend(cfg, s, Tick(claimTime), [Claim(p, batch)] + tail);
    assert [Tick(claimTime)] + ([Claim(p, batch)] + tail) == PollSteps(claimTime, p, batch, outcome, markTime);
  }

  /** Refinement: the protocol steps of a poll change the table, the broker and the counters
      exactly as `OutboxPublisher.RunOnce` does when its commit succeeds and no time passes between
      its mark and its counting. */
  lemma PollIsRunOnce(
    cfg: Config, s: System, claimTime: Instant, p: string, batch: seq<nat>, outcome: BrokerOutcome, markTime: Instant)
    requires s.now <= claimTime <= markTime
    requires Enabled(cfg, s.(now := claimTime), Claim(p, batch))
    ensures batch[0] in s.rows
    ensures var s' := AfterPoll(cfg, s, claimTime, p, batch, outcome, markTime);
      && var before := s.rows[batch[0]];
      && s'.rows == s.rows[batch[0] :=
           MarkRow(cfg, ClaimRow(before, p, cfg.leaseSeconds, claimTime), outcome, markTime)]
      && s'.traffic.log == s.traffic.log + OutboxPublisher.Arrivals(before.message, outcome)
      && s'.counters.stats == Merge(s.counters.stats, Delta(cfg, before.attemptCount, outcome, markTime))
      && s'.publishers == s.publishers[p := Idle]
      && s'.enrolments == s.enrolments && s'.now == markTime && s'.nextId == s.nextId
  {
  }

  // ---------------------------------------------------------------------------
  // Draining
  // ---------------------------------------------------------------------------

  lemma {:induction false} LeastExists(t: Table, ids: set<nat>) returns (least: nat)
    requires ids != {} && ids <= t.Keys && WellKeyed(t)
    ensures least in ids && forall id :: id in ids && id != least ==> Before(t[least], t[id])
    decreases ids
  {
    var some :| some in ids;
    if ids == {some} {
      least := some;
    } else {
      var rest := LeastExists(t, ids - {some});
      least := if Before(t[rest], t[some]) then rest else some;
    }
  }

  /** The claim query always has an answer. */
  lemma {:induction false} BatchExists(t: Table, locked: set<nat>, now: Instant, limit: nat) returns (batch: seq<nat>)
    requires WellKeyed(t)
    ensures IsBatch(t, locked, now, limit, batch)
  {
    if limit == 0 {
      batch := [];
    } else {
      batch := BatchExists(t, locked, now, limit - 1);
      var rest := set id | id in t.Keys && Eligible(t, id, now) && id !in locked && id !in batch;
      if rest != {} {
        var least := LeastExists(t, rest);
        assert least !in batch && Eligible(t, least, now);
        batch := batch + [least];
      }
      assert forall id :: Eligible(t, id, now) && id !in locked && id !in batch ==> id in rest;
    }
  }

  /** With every publisher idle and a row pending, a poll can run once the row is due. */
  lemma PollPossible(cfg: Config, s: System, p: string, id: nat) returns (claimTime: Instant, batch: seq<nat>)
    requires WellKeyed(s.rows) && OutboxGuarantees.AtRest(s) && p in s.publishers
    requires cfg.leaseSeconds > 0 && cfg.batchSize > 0
    requires id in s.rows && s.rows[id].status == Pending
    ensures s.now <= claimTime && Enabled(cfg, s.(now := claimTime), Claim(p, batch))
  {
    claimTime := if s.rows[id].nextAttemptAt <= s.now then s.now else s.rows[id].nextAttemptAt;
    var ready := s.(now := claimTime);
    assert Locked(ready) == {};
    batch := BatchExists(s.rows, Locked(ready), claimTime, cfg.batchSize);
    assert Eligible(s.rows, id, claimTime);
  }

  ghost predicate NothingPending(s: System) {
    forall id :: id in s.rows ==> s.rows[id].status != Pending
  }

  /** One crash-free poll from a state at rest leads to a state at rest with less budget. */
  lemma OnePoll(cfg: Config, s: System, p: string, outcome: BrokerOutcome) returns (steps: seq<Step>)
    requires Inv(cfg, s) && OutboxGuarantees.AtRest(s) && p in s.publishers && !NothingPending(s)
    requires cfg.leaseSeconds > 0 && cfg.batchSize > 0
    ensures Runnable(cfg, s, steps) && Commits(steps) == 1 && Answers(steps) == [outcome] && Granted(cfg, steps) == 0
    ensures var s' := After(cfg, s, steps);
      && Inv(cfg, s') && OutboxGuarantees.AtRest(s') && p in s'.publishers
      && s'.ledger.enrolled == s.ledger.enrolled
      && Total(cfg, s') < Total(cfg, s)
  {
    var id :| id in s.rows && s.rows[id].status == Pending;
    var claimTime, batch := PollPossible(cfg, s, p, id);
    steps := PollSteps(claimTime, p, batch, outcome, claimTime);
    PollCounts(cfg, claimTime, p, batch, outcome);
    PollKeepsEnrolled(cfg, s, claimTime, p, batch, outcome);
    PollRuns(cfg, s, claimTime, p, batch, outcome, claimTime);
    OutboxGuarantees.RunKeepsInv(cfg, s, steps);
    CommitsAreBounded(cfg, s, steps);
  }

  lemma PollCounts(cfg: Config, claimTime: Instant, p: string, batch: seq<nat>, outcome: BrokerOutcome)
    ensures var steps := PollSteps(claimTime, p, batch, outcome, claimTime);
      Commits(steps) == 1 && Answers(steps) == [outcome] && Granted(cfg, steps) == 0
  {
    var last := [Commit(p)];
    var marked := [Mark(p)] + last;
    var ticked := [Tick(claimTime)] + marked;
    var sent := [Send(p, outcome)] + ticked;
    var claimed := [Claim(p, batch)] + sent;
    assert PollSteps(claimTime, p, batch, outcome, claimTime) == [Tick(claimTime)] + claimed;
    assert last[1..] == [] && marked[1..] == last && ticked[1..] == marked && sent[1..] == ticked && claimed[1..] == sent;
    assert ([Tick(claimTime)] + claimed)[1..] == claimed;
    assert Answers(last) == [] && Answers(marked) == [] && Answers(ticked) == [] && Answers(sent) == [outcome];
    assert Commits(last) == 1 && Commits(marked) == 1 && Commits(ticked) == 1 && Commits(sent) == 1;
    assert Granted(cfg, last) == 0 && Granted(cfg, marked) == 0 && Granted(cfg, ticked) == 0 && Granted(cfg, sent) == 0;
  }

  lemma PollKeepsEnrolled(
    cfg: Config, s: System, claimTime: Instant, p: string, batch: seq<nat>, outcome: BrokerOutcome)
    requires OutboxGuarantees.AtRest(s) && Enabled(cfg, s.(now := claimTime), Claim(p, batch))
    ensures var s' := AfterPoll(cfg, s, claimTime, p, batch, outcome, claimTime);
      && s'.ledger.enrolled == s.ledger.enrolled
      && OutboxGuarantees.AtRest(s') && p in s'.publishers
  {
  }

  /** Whatever the broker answers, one publisher that keeps polling empties the queue, in at
      most as many polls as the budget it started with. `answers` is the broker's whole script;
      it is only required to be long enough. */
  lemma {:induction false} QueueDrains(cfg: Config, s: System, p: string, answers: seq<BrokerOutcome>)
    returns (steps: seq<Step>)
    requires Inv(cfg, s) && OutboxGuarantees.AtRest(s) && p in s.publishers
    requires cfg.leaseSeconds > 0 && cfg.batchSize > 0
    requires |answers| >= Total(cfg, s)
    ensures Runnable(cfg, s, steps)
    ensures Answers(steps) <= answers && Commits(steps) == |Answers(steps)| <= Total(cfg, s)
    ensures NothingPending(After(cfg, s, steps))
    ensures After(cfg, s, steps).ledger.enrolled == s.ledger.enrolled
    decreases Total(cfg, s)
  {
    hide Inv, Enabled, Apply, Total;
    if NothingPending(s) {
      steps := [];
    } else {
      TotalPositive(cfg, s);
      var poll := OnePoll(cfg, s, p, answers[0]);
      var s' := After(cfg, s, poll);
      var rest := QueueDrains(cfg, s', p, answers[1..]);
      steps := poll + rest;
      RunsCompose(cfg, s, poll, rest);
      CountsCompose(poll, rest);
    }
  }

  lemma TotalPositive(cfg: Config, s: System)
    requires Inv(cfg, s) && !NothingPending(s)
    ensures Total(cfg, s) >= 1
  {
    var id :| id in s.rows && s.rows[id].status == Pending;
    BudgetCoversPending(cfg, s.rows, id, s.nextId);
  }

  // ---------------------------------------------------------------------------
  // Every schedule drains
  // ---------------------------------------------------------------------------

  predicate EnrolmentFree(steps: seq<Step>) {
    forall i :: 0 <= i < |steps| ==> !steps[i].EnrolCommit?
  }

  lemma {:induction false} NothingGranted(cfg: Config, steps: seq<Step>)
    requires EnrolmentFree(steps)
    ensures Granted(cfg, steps) == 0
  {
    if steps != [] {
      assert forall i :: 0 <= i < |steps[1..]| ==> steps[1..][i] == steps[i + 1];
      NothingGranted(cfg, steps[1..]);
    }
  }

  /** Whoever schedules the steps, with any number of publishers, any crashes and any broker: a
      run without new enrolments commits at most `Total` polls, and once it has committed that
      many nothing is pending. */
  lemma EveryScheduleDrains(cfg: Config, s: System, steps: seq<Step>)
    requires Inv(cfg, s) && Runnable(cfg, s, steps) && EnrolmentFree(steps)
    ensures Commits(steps) <= Total(cfg, s)
    ensures Commits(steps) == Total(cfg, s) ==> NothingPending(After(cfg, s, steps))
  {
    hide Inv, Runnable, After, Total, NothingPending;
    NothingGranted(cfg, steps);
    CommitsAreBounded(cfg, s, steps);
    OutboxGuarantees.RunKeepsInv(cfg, s, steps);
    if Commits(steps) == Total(cfg, s) && !NothingPending(After(cfg, s, steps)) {
      TotalPositive(cfg, After(cfg, s, steps));
    }
  }

  /** The polls that found a row. */
  function Claims(steps: seq<Step>): nat {
    if steps == [] then 0 else (if steps[0].Claim? then 1 else 0) + Claims(steps[1..])
  }

  function Busy(s: System, p: string): nat {
    if p in s.publishers && s.publishers[p].InTx? then 1 else 0
  }

  lemma StepClaims(cfg: Config, s: System, step: Step, p: string)
    requires Enabled(cfg, s, step) && s.publishers.Keys == {p} && !step.Crash?
    ensures var s' := Apply(cfg, s, step);
      && s'.publishers.Keys == {p}
      && (if step.Claim? then 1 else 0) + Busy(s, p) == (if step.Commit? then 1 else 0) + Busy(s', p)
  {
  }

  /** Without crashes every claim of the only publisher is committed before the next one. */
  lemma {:induction false} ClaimsAreCommits(cfg: Config, s: System, steps: seq<Step>, p: string)
    requires Runnable(cfg, s, steps) && s.publishers.Keys == {p} && OutboxGuarantees.CrashFree(steps)
    ensures Claims(steps) + Busy(s, p) == Commits(steps) + Busy(After(cfg, s, steps), p)
    decreases |steps|
  {
    hide Enabled, Apply, Busy;
    if steps != [] {
      StepClaims(cfg, s, steps[0], p);
      assert forall i :: 0 <= i < |steps[1..]| ==> steps[1..][i] == steps[i + 1];
      ClaimsAreCommits(cfg, Apply(cfg, s, steps[0]), steps[1..], p);
    }
  }

  /** Every crash-free and enrolment-free run of one publisher from rest to rest makes at most
      `Total` non-empty polls, and after that many nothing is pending. */
  lemma PollingRunDrains(cfg: Config, s: System, steps: seq<Step>, p: string)
    requires Inv(cfg, s) && Runnable(cfg, s, steps) && s.publishers.Keys == {p}
    requires OutboxGuarantees.CrashFree(steps) && EnrolmentFree(steps)
    requires OutboxGuarantees.AtRest(s) && OutboxGuarantees.AtRest(After(cfg, s, steps))
    ensures Claims(steps) == Commits(steps) <= Total(cfg, s)
    ensures Claims(steps) == Total(cfg, s) ==> NothingPending(After(cfg, s, steps))
  {
    hide Inv, Runnable, After, Total, NothingPending;
    ClaimsAreCommits(cfg, s, steps, p);
    EveryScheduleDrains(cfg, s, steps);
  }

  /** Polling only ever stops finding rows because nothing is pending: at rest there is a pending
      row exactly if some poll, now or later, can claim one. */
  lemma PollsStopIffDrained(cfg: Config, s: System, p: string)
    requires Inv(cfg, s) && OutboxGuarantees.AtRest(s) && p in s.publishers
    requires cfg.leaseSeconds > 0 && cfg.batchSize > 0
    ensures !NothingPending(s) <==> exists t, batch :: s.now <= t && Enabled(cfg, s.(now := t), Claim(p, batch))
  {
    if !NothingPending(s) {
      var id :| id in s.rows && s.rows[id].status == Pending;
      var t, batch := PollPossible(cfg, s, p, id);
    }
    forall t, batch | Enabled(cfg, s.(now := t), Claim(p, batch))
      ensures !NothingPending(s)
    {
      assert Eligible(s.rows, batch[0], t);
    }
  }
}
