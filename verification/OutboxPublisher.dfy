/** One publisher process: claim a row, send it, mark it, commit. */
module OutboxPublisher {
  import opened Outcomes
  import opened OutboxStates
  import opened OutboxRows
  import opened RetryPolicy
  import opened OutboxRepository

  /** The broker as the publisher sees it: an outcome per call, and the messages that arrived. */
  class Broker {
    var log: seq<Message>

    constructor ()
      ensures log == []
    {
      log := [];
    }

    method SendTask(message: Message, outcome: BrokerOutcome)
      modifies this
      ensures log == old(log) + Arrivals(message, outcome)
    {
      log := log + Arrivals(message, outcome);
    }
  }

  function Arrivals(message: Message, outcome: BrokerOutcome): seq<Message> {
    if outcome.Accepted? || outcome.reached then [message] else []
  }

  datatype RunResult = Finished(delta: Stats) | ConfigRaised | CommitRaised

  class OutboxPublisher {
    const claimedBy: string
    const cfg: Config
    const repository: OutboxRepository
    const broker: Broker
    var stats: Stats

    constructor (repository: OutboxRepository, broker: Broker, claimedBy: string, cfg: Config)
      ensures this.repository == repository && this.broker == broker
      ensures this.claimedBy == claimedBy && this.cfg == cfg && stats == NO_STATS
    {
      this.repository := repository;
      this.broker := broker;
      this.claimedBy := claimedBy;
      this.cfg := cfg;
      stats := NO_STATS;
    }

    /** One poll in a fresh transaction. `locked` is what other transactions hold; the broker's
        answer and the success of the final commit come from outside. Either the head of the
        claimed batch is replaced by its marked version, or nothing committed changes; a lost
        commit after a refused message still leaves its counters behind, a lost commit after an
        accepted one does not. The clock is read once more for the publisher's own counters
        (`countedAt`) and once more for the returned ones (`returnedAt`). */
    method RunOnce(
      locked: set<nat>, claimTime: Instant, outcome: BrokerOutcome, markTime: Instant, commitSucceeds: bool,
      countedAt: Instant, returnedAt: Instant)
      returns (r: RunResult, batch: seq<nat>)
      requires repository.db.Valid() && repository.db.view == repository.db.committed
      requires claimTime <= markTime <= countedAt <= returnedAt
      modifies repository.db, broker, this`stats
      ensures repository.db.Valid()
      ensures r.ConfigRaised? <==> cfg.leaseSeconds <= 0 || cfg.batchSize <= 0
      ensures r.ConfigRaised? ==> batch == [] && stats == old(stats)
      ensures !r.ConfigRaised? ==>
        IsBatch(old(repository.db.committed), locked, claimTime, cfg.batchSize, batch)
      ensures batch == [] ==>
        && repository.db.committed == repository.db.view == old(repository.db.committed)
        && broker.log == old(broker.log)
        && (r.Finished? ==>
              && r.delta == Stats(0, 0, 0, 0, 1, Some(returnedAt))
              && stats == Merge(old(stats), r.delta.(lastProcessedAt := Some(countedAt))))
      ensures batch != [] ==>
        && batch[0] in old(repository.db.committed)
        && var before := old(repository.db.committed)[batch[0]];
        && var after := MarkRow(cfg, ClaimRow(before, claimedBy, cfg.leaseSeconds, claimTime), outcome, markTime);
        && var counted := Delta(cfg, before.attemptCount, outcome, if outcome.Raised? then markTime else countedAt);
        && var returned := Delta(cfg, before.attemptCount, outcome, if outcome.Raised? then markTime else returnedAt);
        && broker.log == old(broker.log) + Arrivals(before.message, outcome)
        && r == (if commitSucceeds then Finished(returned) else CommitRaised)
        && repository.db.committed
             == old(repository.db.committed)[batch[0] := if commitSucceeds then after else before]
        && stats == (if commitSucceeds || outcome.Raised? then Merge(old(stats), counted) else old(stats))
        && (commitSucceeds ==>
              repository.db.committed[batch[0]].status ==
                if outcome.Accepted? then Published
                else if outcome.error == NotRegistered || before.attemptCount + 1 >= cfg.maxAttempts then Failed
                else Pending)
      ensures Balanced(old(stats)) ==> Balanced(stats)
    {
      hide FailRow, RetryRow, IsTerminal, BackoffSeconds, NextAttemptAt, IsBatch, Latest, Balanced;
      var db := repository.db;
      var claim;
      claim, batch := repository.TryClaimOne(claimedBy, locked, cfg.leaseSeconds, cfg.batchSize, claimTime);
      if claim.Err? {
        return ConfigRaised, batch;
      }
      if claim.value.None? {
        MergeBalanced(stats, Stats(0, 0, 0, 0, 1, Some(countedAt)));
        stats := Merge(stats, Stats(0, 0, 0, 0, 1, Some(countedAt)));
        return Finished(Stats(0, 0, 0, 0, 1, Some(returnedAt))), batch;
      }
      var claimed := claim.value.value;
      assert IsPublishing(db.view, batch[0], claimed.message.eventId);
      broker.SendTask(claimed.message, outcome);
      var delta;
      if outcome.Raised? {
        delta := HandlePublishError(claimed, batch[0], outcome, markTime);
      } else {
        var marked := repository.MarkPublished(claimed.message.eventId, markTime);
        delta := Stats(1, 1, 0, 0, 0, Some(returnedAt));
      }
      if !commitSucceeds {
        return CommitRaised, batch;
      }
      db.Commit();
      if outcome.Accepted? {
        MergeBalanced(stats, Stats(1, 1, 0, 0, 0, Some(countedAt)));
        stats := Merge(stats, Stats(1, 1, 0, 0, 0, Some(countedAt)));
      }
      r := Finished(delta);
    }

    method HandlePublishError(claimed: Row, ghost id: nat, outcome: BrokerOutcome, now: Instant)
      returns (delta: Stats)
      requires repository.db.Valid() && outcome.Raised?
      requires IsPublishing(repository.db.view, id, claimed.message.eventId)
      requires repository.db.view[id] == claimed
      modifies repository.db`view, this`stats
      ensures repository.db.Valid()
      ensures repository.db.view == old(repository.db.view)[id := MarkRow(cfg, claimed, outcome, now)]
      ensures repository.db.view[id].status ==
        if outcome.error == NotRegistered || claimed.attemptCount + 1 >= cfg.maxAttempts then Failed else Pending
      ensures delta == Delta(cfg, claimed.attemptCount, outcome, now)
      ensures stats == Merge(old(stats), delta)
      ensures Balanced(old(stats)) ==> Balanced(stats)
    {
      var classification := ClassifyCeleryError(outcome.error);
      var nextAttemptCount := claimed.attemptCount + 1;
      if classification == Terminal || nextAttemptCount >= cfg.maxAttempts {
        var marked := repository.MarkFailedTerminal(claimed.message.eventId, outcome.text, now);
        delta := Stats(1, 0, 0, 1, 0, Some(now));
      } else {
        var nextAttemptAt := NextAttemptAt(now, nextAttemptCount);
        var marked := repository.MarkFailedToRetry(claimed.message.eventId, nextAttemptAt, outcome.text, now);
        delta := Stats(1, 0, 1, 0, 0, Some(now));
      }
      stats := Merge(stats, delta);
    }

    /** The supervised loop body: a new session before, a closed one after, so no uncommitted
        write survives an iteration however it ends. The loop's cumulative counters gain exactly
        what a finished iteration reports; after a failed one they are what they were, even where
        the publisher's own counters have run ahead. The publisher's own counters agree with them
        after a finished one up to the time of the last row, which may be older there. */
    method RunIteration(
      cumulative: Stats, locked: set<nat>, claimTime: Instant, outcome: BrokerOutcome, markTime: Instant,
      commitSucceeds: bool, countedAt: Instant, returnedAt: Instant)
      returns (r: RunResult, newCumulative: Stats)
      requires repository.db.Valid() && claimTime <= markTime <= countedAt <= returnedAt
      modifies repository.db, broker, this`stats
      ensures repository.db.Valid() && repository.db.view == repository.db.committed
      ensures !r.Finished? ==> repository.db.committed == old(repository.db.committed)
      ensures newCumulative == if r.Finished? then Merge(cumulative, r.delta) else cumulative
      ensures r.Finished? ==>
        && stats == newCumulative.(lastProcessedAt := stats.lastProcessedAt)
        && stats.lastProcessedAt.Some? && newCumulative.lastProcessedAt.Some?
        && stats.lastProcessedAt.value <= newCumulative.lastProcessedAt.value
        && (countedAt == returnedAt ==> stats == newCumulative)
      ensures Balanced(cumulative) ==> Balanced(newCumulative)
    {
      repository.db.Rollback();
      stats := cumulative;
      var batch;
      r, batch := RunOnce(locked, claimTime, outcome, markTime, commitSucceeds, countedAt, returnedAt);
      repository.db.Rollback();
      newCumulative := if r.Finished? then Merge(cumulative, r.delta) else cumulative;
    }
  }
}
