/** The publisher's pure parts: backoff arithmetic, error classification, the decision taken
    after one broker call, and the counters. */
module RetryPolicy {
  import opened Outcomes
  import opened OutboxStates
  import opened OutboxRows

  const BACKOFF_BASE_SECONDS: int := 5
  const BACKOFF_CAP_SECONDS: int := 300
  const MAX_ATTEMPTS: int := 12

  datatype Config = Config(batchSize: int, leaseSeconds: int, maxAttempts: int)

  // ---------------------------------------------------------------------------
  // Backoff
  // ---------------------------------------------------------------------------

  function Pow2(n: nat): (p: nat)
    ensures p >= 1
  {
    if n == 0 then 1 else 2 * Pow2(n - 1)
  }

  /** Seconds to wait before attempt `attemptCount + 1`. */
  function BackoffSeconds(attemptCount: int): int {
    var n := if attemptCount < 1 then 1 else attemptCount;
    var delay := BACKOFF_BASE_SECONDS * Pow2(n - 1);
    if delay < BACKOFF_CAP_SECONDS then delay else BACKOFF_CAP_SECONDS
  }

  function NextAttemptAt(now: Instant, attemptCount: int): Instant {
    now + BackoffSeconds(attemptCount) * SECOND
  }

  lemma {:induction false} Pow2Monotone(m: nat, n: nat)
    requires m <= n
    ensures Pow2(m) <= Pow2(n)
  {
    if m < n {
      Pow2Monotone(m, n - 1);
    }
  }

  /** Never below the base, never above the cap, never shorter than an earlier delay. */
  lemma BackoffShape(m: int, n: int)
    ensures BACKOFF_BASE_SECONDS <= BackoffSeconds(n) <= BACKOFF_CAP_SECONDS
    ensures m <= n ==> BackoffSeconds(m) <= BackoffSeconds(n)
  {
    var m', n' := if m < 1 then 1 else m, if n < 1 then 1 else n;
    if m <= n {
      Pow2Monotone(m' - 1, n' - 1);
    }
  }

  function TotalBackoff(n: nat): int {
    if n == 0 then 0 else TotalBackoff(n - 1) + BackoffSeconds(n)
  }

  /** From the seventh failure on every delay is the cap, so the total grows linearly. */
  lemma {:induction false} TotalBackoffClosedForm(n: nat)
    requires n >= 6
    ensures TotalBackoff(n) == 315 + 300 * (n - 6)
  {
    if n == 6 {
      assert Pow2(1) == 2 && Pow2(2) == 4 && Pow2(3) == 8 && Pow2(4) == 16 && Pow2(5) == 32;
      assert TotalBackoff(1) == 5 && TotalBackoff(2) == 15 && TotalBackoff(3) == 35;
      assert TotalBackoff(4) == 75 && TotalBackoff(5) == 155;
    } else {
      TotalBackoffClosedForm(n - 1);
      assert Pow2(6) == 2 * Pow2(5) == 4 * Pow2(4) == 8 * Pow2(3) == 16 * Pow2(2) == 64;
      Pow2Monotone(6, n - 1);
    }
  }

  /** A row that uses up the whole default budget has been delayed eleven times. */
  lemma ExhaustionTakes1815Seconds()
    ensures TotalBackoff(MAX_ATTEMPTS - 1) == 1815
  {
    TotalBackoffClosedForm(MAX_ATTEMPTS - 1);
  }

  // ---------------------------------------------------------------------------
  // Broker outcomes
  // ---------------------------------------------------------------------------

  datatype BrokerError =
    | NotRegistered
    | KombuOperationalError
    | KombuConnectionError
    | BuiltinConnectionError
    | TimeoutError
    | OsError
    | OtherError

  datatype Classification = Retryable | Terminal

  function ClassifyCeleryError(error: BrokerError): Classification {
    match error
    case NotRegistered => Terminal
    case _ => Retryable
  }

  /** A call that raises may still have reached the broker (`reached`). */
  datatype BrokerOutcome =
    | Accepted
    | Raised(error: BrokerError, text: string, reached: bool)

  predicate IsTerminal(cfg: Config, attemptCount: nat, outcome: BrokerOutcome) {
    outcome.Raised?
    && (ClassifyCeleryError(outcome.error) == Terminal || attemptCount + 1 >= cfg.maxAttempts)
  }

  /** The row the publisher writes after the broker call. */
  function MarkRow(cfg: Config, claimed: Row, outcome: BrokerOutcome, now: Instant): Row {
    if outcome.Accepted? then
      PublishRow(claimed, now)
    else if IsTerminal(cfg, claimed.attemptCount, outcome) then
      FailRow(claimed, outcome.text, now)
    else
      RetryRow(claimed, NextAttemptAt(now, claimed.attemptCount + 1), outcome.text, now)
  }

  /** An attempt count that still leaves at least one attempt. */
  predicate WithinBudget(cfg: Config, attemptCount: nat) {
    attemptCount == 0 || attemptCount < cfg.maxAttempts
  }

  /** A mark keeps everything that identifies the row, follows a table edge out of
      `Publishing`, releases the claim, never exceeds the budget, and moves a retried row
      strictly behind its own mark time. */
  lemma MarkRowShape(cfg: Config, claimed: Row, outcome: BrokerOutcome, now: Instant)
    requires claimed.status == Publishing && WithinBudget(cfg, claimed.attemptCount)
    ensures var m := MarkRow(cfg, claimed, outcome, now);
      && CanTransition(Publishing, m.status)
      && (m.id, m.message, m.taskLogId) == (claimed.id, claimed.message, claimed.taskLogId)
      && m.claimedBy == None && m.leaseExpiresAt == None
      && WithinBudget(cfg, m.attemptCount)
      && (m.status == Published <==> outcome.Accepted?)
      && (m.status == Pending ==>
            m.attemptCount == claimed.attemptCount + 1 && m.nextAttemptAt >= now + 5 * SECOND)
      && (m.status != Pending ==> m.attemptCount == claimed.attemptCount)
  {
  }

  /** What a broker call makes of a claimed row, error by error: an unregistered task and a used-up
      budget end it, every other error leaves it pending with one attempt more, due after its
      delay, and an accepted message publishes it. */
  lemma MarkDecides(cfg: Config, claimed: Row, outcome: BrokerOutcome, now: Instant)
    ensures var m := MarkRow(cfg, claimed, outcome, now);
      var dead := outcome.Raised? && (outcome.error == NotRegistered || claimed.attemptCount + 1 >= cfg.maxAttempts);
      && m.status == (if outcome.Accepted? then Published else if dead then Failed else Pending)
      && m.publishedAt == (if outcome.Accepted? then Some(now) else claimed.publishedAt)
      && m.lastError == (if outcome.Accepted? then None else Some(outcome.text))
      && m.updatedAt == now && m.createdAt == claimed.createdAt && m.dedupeKey == claimed.dedupeKey
      && (m.status != Pending ==> m.attemptCount == claimed.attemptCount && m.nextAttemptAt == claimed.nextAttemptAt)
      && (m.status == Pending ==>
            && m.attemptCount == claimed.attemptCount + 1
            && var delay := 5 * Pow2(claimed.attemptCount);
              m.nextAttemptAt == now + (if delay < 300 then delay else 300) * 1_000_000)
  {
  }

  // ---------------------------------------------------------------------------
  // Counters
  // ---------------------------------------------------------------------------

  datatype Stats = Stats(
    claimed: nat, published: nat, retryableFailures: nat, terminalFailures: nat,
    emptyPolls: nat, lastProcessedAt: Option<Instant>)

  const NO_STATS := Stats(0, 0, 0, 0, 0, None)

  function Latest(a: Option<Instant>, b: Option<Instant>): Option<Instant> {
    if b.Some? && (a.None? || b.value > a.value) then b else a
  }

  function Merge(a: Stats, b: Stats): Stats {
    Stats(a.claimed + b.claimed,
          a.published + b.published,
          a.retryableFailures + b.retryableFailures,
          a.terminalFailures + b.terminalFailures,
          a.emptyPolls + b.emptyPolls,
          Latest(a.lastProcessedAt, b.lastProcessedAt))
  }

  /** The counters one processed row contributes. */
  function Delta(cfg: Config, attemptCount: nat, outcome: BrokerOutcome, now: Instant): Stats {
    if outcome.Accepted? then Stats(1, 1, 0, 0, 0, Some(now))
    else if IsTerminal(cfg, attemptCount, outcome) then Stats(1, 0, 0, 1, 0, Some(now))
    else Stats(1, 0, 1, 0, 0, Some(now))
  }

  /** The counters of a processed row say what has become of it. */
  lemma DeltaCounts(cfg: Config, claimed: Row, outcome: BrokerOutcome, markedAt: Instant, now: Instant)
    ensures var status := MarkRow(cfg, claimed, outcome, markedAt).status;
      Delta(cfg, claimed.attemptCount, outcome, now)
        == Stats(1, if status == Published then 1 else 0, if status == Pending then 1 else 0,
                 if status == Failed then 1 else 0, 0, Some(now))
  {
  }

  predicate Balanced(s: Stats) {
    s.claimed == s.published + s.retryableFailures + s.terminalFailures
  }

  function MergeAll(deltas: seq<Stats>): Stats {
    if deltas == [] then NO_STATS else Merge(MergeAll(deltas[..|deltas| - 1]), deltas[|deltas| - 1])
  }

  lemma MergeAssociates(a: Stats, b: Stats, c: Stats)
    ensures Merge(Merge(a, b), c) == Merge(a, Merge(b, c))
    ensures Merge(a, NO_STATS) == a == Merge(NO_STATS, a)
  {
  }

  /** Merging is associative and has a unit, so any grouping of the same iterations agrees. */
  lemma {:induction false} MergeAllSplits(a: seq<Stats>, b: seq<Stats>)
    ensures MergeAll(a + b) == Merge(MergeAll(a), MergeAll(b))
  {
    if b == [] {
      assert a + b == a;
      MergeAssociates(MergeAll(a), NO_STATS, NO_STATS);
    } else {
      var init, last := b[..|b| - 1], b[|b| - 1];
      MergeAllSplits(a, init);
      assert (a + b)[..|a + b| - 1] == a + init && (a + b)[|a + b| - 1] == last;
      MergeAssociates(MergeAll(a), MergeAll(init), last);
    }
  }

  lemma MergeBalanced(a: Stats, b: Stats)
    ensures Balanced(b) ==> (Balanced(a) <==> Balanced(Merge(a, b)))
    ensures b.claimed == b.published + b.retryableFailures + b.terminalFailures ==> Balanced(b)
  {
  }

  lemma {:induction false} MergeAllBalanced(deltas: seq<Stats>)
    requires forall i :: 0 <= i < |deltas| ==> Balanced(deltas[i])
    ensures Balanced(MergeAll(deltas))
  {
    if deltas != [] {
      MergeAllBalanced(deltas[..|deltas| - 1]);
    }
  }
}
