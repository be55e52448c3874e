/** Any number of publishers and business transactions over one outbox table.

    A publisher's poll is a transaction: it locks a batch, works on a private copy of the
    batch's head, talks to the broker, and only then commits. A crash is a rollback. `ledger`,
    `traffic` and `counters` record the past; no step reads them to decide anything. */
module OutboxProtocol {
  import opened Outcomes
  import opened OutboxStates
  import opened OutboxRows
  import opened RetryPolicy
  import opened OutboxRepository

  datatype Phase = Claimed | Sent(outcome: BrokerOutcome) | Marked(outcome: BrokerOutcome)

  /** `batch` holds the locked row ids; `row` is the private version of row `batch[0]`. */
  datatype Publisher = Idle | InTx(batch: seq<nat>, claimedAt: Instant, row: Row, phase: Phase)

  /** What has become of every row ever committed, by row id (the sequence never reuses one). */
  datatype Ledger = Ledger(
    enrolled: map<nat, Message>,
    published: set<nat>,
    failed: set<nat>,
    cleaned: set<nat>,
    retries: multiset<nat>)

  /** What reached the broker, and which calls ended without telling: crashes after an accepted
      call, and calls that raised (`raisedReached`: although the message had arrived). */
  datatype Traffic = Traffic(
    log: seq<Message>,
    crashedAfterSend: multiset<nat>,
    raised: multiset<nat>,
    raisedReached: multiset<nat>)

  /** The merged counters, and the error marks that were counted but never committed. */
  datatype Counters = Counters(stats: Stats, lostRetries: nat, lostFailures: nat)

  datatype System = System(
    rows: Table,
    nextId: nat,
    publishers: map<string, Publisher>,
    enrolments: map<int, Row>, // open business transactions that have inserted a row
    issued: set<int>,          // event ids handed out so far
    now: Instant,
    ledger: Ledger,
    traffic: Traffic,
    counters: Counters)

  datatype Step =
    | Tick(to: Instant)
    | EnrolBegin(tx: int, event: NewEvent)
    | EnrolCommit(tx: int)
    | EnrolRollback(tx: int)
    | Claim(p: string, batch: seq<nat>)
    | Send(p: string, outcome: BrokerOutcome)
    | Mark(p: string)
    | Commit(p: string)
    | Crash(p: string)
    | Cleanup(olderThan: Instant)

  // ---------------------------------------------------------------------------
  // Observations
  // ---------------------------------------------------------------------------

  predicate Holds(tx: Publisher, id: nat) {
    tx.InTx? && id in tx.batch
  }

  ghost predicate IsLocked(s: System, id: nat) {
    exists p :: p in s.publishers && Holds(s.publishers[p], id)
  }

  ghost function Locked(s: System): (ids: set<nat>)
    ensures forall id :: id in ids <==> id in s.rows && IsLocked(s, id)
  {
    set id | id in s.rows.Keys && IsLocked(s, id)
  }

  /** The broker has accepted the message of row `id`, and the transaction that sent it is open. */
  predicate AcceptedInFlight(tx: Publisher, id: nat) {
    && tx.InTx? && tx.batch != [] && tx.batch[0] == id
    && !tx.phase.Claimed? && tx.phase.outcome.Accepted?
  }

  /** An error mark, towards `status`, that is written but not committed. */
  predicate RaisedMark(tx: Publisher, status: Status) {
    tx.InTx? && tx.phase.Marked? && tx.phase.outcome.Raised? && tx.row.status == status
  }

  ghost function InFlight(publishers: map<string, Publisher>, id: nat): nat {
    if exists p :: p in publishers && AcceptedInFlight(publishers[p], id) then 1 else 0
  }

  /** How many messages with this event id have reached the broker. */
  function Arrived(log: seq<Message>, eventId: int): nat {
    if log == [] then 0
    else Arrived(log[..|log| - 1], eventId) + (if log[|log| - 1].eventId == eventId then 1 else 0)
  }

  function Reaches(outcome: BrokerOutcome): bool {
    outcome.Accepted? || outcome.reached
  }

  // ---------------------------------------------------------------------------
  // Steps
  // ---------------------------------------------------------------------------

  predicate OpenTx(s: System, p: string) {
    p in s.publishers && s.publishers[p].InTx? && s.publishers[p].batch != []
  }

  /** A business insert waits for other open inserts with the same keys, and succeeds only if
      no committed row carries the task log (see `EnrollWithTaskLog`). */
  ghost predicate SlotFree(s: System, event: NewEvent) {
    && IsSlot(s.rows, event.taskLogId, Free)
    && (forall tx :: tx in s.enrolments ==> s.enrolments[tx].taskLogId != event.taskLogId)
  }

  ghost predicate Enabled(cfg: Config, s: System, step: Step) {
    match step
    case Tick(to) => s.now <= to
    case EnrolBegin(tx, event) =>
      && tx !in s.enrolments
      && event.createdAt == s.now
      && event.message.eventId !in s.issued
      && SlotFree(s, event)
    case EnrolCommit(tx) => tx in s.enrolments
    case EnrolRollback(tx) => tx in s.enrolments
    case Claim(p, batch) =>
      && p in s.publishers && s.publishers[p].Idle?
      && cfg.leaseSeconds > 0
      && batch != []
      && IsBatch(s.rows, Locked(s), s.now, cfg.batchSize, batch)
    case Send(p, _) => OpenTx(s, p) && s.publishers[p].phase.Claimed?
    case Mark(p) => OpenTx(s, p) && s.publishers[p].phase.Sent?
    case Commit(p) => OpenTx(s, p) && s.publishers[p].phase.Marked?
    case Crash(p) => OpenTx(s, p)
    case Cleanup(_) => true
  }

  function Put(s: System, p: string, tx: Publisher): System {
    s.(publishers := s.publishers[p := tx])
  }

  ghost function ApplyClaim(cfg: Config, s: System, p: string, batch: seq<nat>): System
    requires Enabled(cfg, s, Claim(p, batch))
  {
    assert Eligible(s.rows, batch[0], s.now);
    Put(s, p, InTx(batch, s.now, ClaimRow(s.rows[batch[0]], p, cfg.leaseSeconds, s.now), Claimed))
  }

  function ApplySend(s: System, p: string, outcome: BrokerOutcome): System
    requires OpenTx(s, p)
  {
    var tx, t := s.publishers[p], s.traffic;
    var id := tx.batch[0];
    Put(s, p, tx.(phase := Sent(outcome)))
    .(traffic := t.(
      log := if Reaches(outcome) then t.log + [tx.row.message] else t.log,
      raised := if outcome.Raised? then t.raised + multiset{id} else t.raised,
      raisedReached :=
        if outcome.Raised? && outcome.reached then t.raisedReached + multiset{id} else t.raisedReached))
  }

  /** A refused message is counted here, before the commit; an accepted one only after it. */
  function ApplyMark(cfg: Config, s: System, p: string): System
    requires OpenTx(s, p) && s.publishers[p].phase.Sent?
  {
    var tx, c := s.publishers[p], s.counters;
    var outcome := tx.phase.outcome;
    var delta := Delta(cfg, tx.row.attemptCount, outcome, s.now);
    Put(s, p, tx.(row := MarkRow(cfg, tx.row, outcome, s.now), phase := Marked(outcome)))
    .(counters := c.(stats := if outcome.Raised? then Merge(c.stats, delta) else c.stats))
  }

  function Settle(l: Ledger, id: nat, row: Row): Ledger {
    l.(published := if row.status == Published then l.published + {id} else l.published,
       failed := if row.status == Failed then l.failed + {id} else l.failed,
       retries := if row.status == Pending then l.retries + multiset{id} else l.retries)
  }

  function ApplyCommit(cfg: Config, s: System, p: string): System
    requires OpenTx(s, p) && s.publishers[p].phase.Marked?
  {
    var tx, c := s.publishers[p], s.counters;
    var id := tx.batch[0];
    var delta := Delta(cfg, tx.row.attemptCount, Accepted, tx.row.updatedAt);
    Put(s, p, Idle)
    .(rows := s.rows[id := tx.row],
      ledger := Settle(s.ledger, id, tx.row),
      counters := c.(stats := if tx.phase.outcome.Accepted? then Merge(c.stats, delta) else c.stats))
  }

  function ApplyCrash(s: System, p: string): System
    requires OpenTx(s, p)
  {
    var tx, t, c := s.publishers[p], s.traffic, s.counters;
    var id := tx.batch[0];
    Put(s, p, Idle)
    .(traffic := t.(crashedAfterSend :=
        if AcceptedInFlight(tx, id) then t.crashedAfterSend + multiset{id} else t.crashedAfterSend),
      counters := c.(
        lostRetries := if RaisedMark(tx, Pending) then c.lostRetries + 1 else c.lostRetries,
        lostFailures := if RaisedMark(tx, Failed) then c.lostFailures + 1 else c.lostFailures))
  }

  function ApplyCleanup(s: System, olderThan: Instant): System {
    var gone := set id | id in s.rows.Keys && Expired(s.rows[id], olderThan);
    s.(rows := s.rows - gone, ledger := s.ledger.(cleaned := s.ledger.cleaned + gone))
  }

  function ApplyEnrolCommit(s: System, tx: int): System
    requires tx in s.enrolments
  {
    var row := s.enrolments[tx];
    s.(rows := s.rows[row.id := row],
       enrolments := s.enrolments - {tx},
       ledger := s.ledger.(enrolled := s.ledger.enrolled[row.id := row.message]))
  }

  ghost function Apply(cfg: Config, s: System, step: Step): System
    requires Enabled(cfg, s, step)
  {
    match step
    case Tick(to) => s.(now := to)
    case EnrolBegin(tx, event) =>
      s.(enrolments := s.enrolments[tx := InitialRow(event, s.nextId)],
         nextId := s.nextId + 1,
         issued := s.issued + {event.message.eventId})
    case EnrolCommit(tx) => ApplyEnrolCommit(s, tx)
    case EnrolRollback(tx) => s.(enrolments := s.enrolments - {tx})
    case Claim(p, batch) => ApplyClaim(cfg, s, p, batch)
    case Send(p, outcome) => ApplySend(s, p, outcome)
    case Mark(p) => ApplyMark(cfg, s, p)
    case Commit(p) => ApplyCommit(cfg, s, p)
    case Crash(p) => ApplyCrash(s, p)
    case Cleanup(olderThan) => ApplyCleanup(s, olderThan)
  }

  ghost predicate Initial(s: System) {
    && s.rows == map[] && s.nextId == 0 && s.enrolments == map[] && s.issued == {}
    && (forall p :: p in s.publishers ==> s.publishers[p].Idle?)
    && s.ledger == Ledger(map[], {}, {}, {}, multiset{})
    && s.traffic == Traffic([], multiset{}, multiset{}, multiset{})
    && s.counters == Counters(NO_STATS, 0, 0)
  }

  /** A run is a sequence of steps, each enabled where it is taken. */
  ghost predicate Runnable(cfg: Config, s: System, steps: seq<Step>)
    decreases |steps|
  {
    steps == [] || (Enabled(cfg, s, steps[0]) && Runnable(cfg, Apply(cfg, s, steps[0]), steps[1..]))
  }

  ghost function After(cfg: Config, s: System, steps: seq<Step>): System
    requires Runnable(cfg, s, steps)
    decreases |steps|
  {
    if steps == [] then s else After(cfg, Apply(cfg, s, steps[0]), steps[1..])
  }

  // ---------------------------------------------------------------------------
  // The invariant, part by part
  // ---------------------------------------------------------------------------

  /** Committed rows: nothing is ever left in `Publishing`, claims and leases are never
      committed, and the attempt count never uses up the budget. */
  ghost predicate CommittedRow(cfg: Config, row: Row) {
    && row.status != Publishing
    && row.claimedBy == None && row.leaseExpiresAt == None
    && WithinBudget(cfg, row.attemptCount)
  }

  ghost predicate RowsOk(cfg: Config, rows: Table, nextId: nat) {
    && WellKeyed(rows)
    && (forall id :: id in rows ==> id < nextId && CommittedRow(cfg, rows[id]))
  }

  ghost predicate EnrolmentOk(rows: Table, nextId: nat, issued: set<int>, enrolled: map<nat, Message>, row: Row) {
    && row.id < nextId && row.id !in enrolled
    && row.status == Pending && row.attemptCount == 0
    && row.claimedBy == None && row.leaseExpiresAt == None
    && row.message.eventId in issued
    && (forall id :: id in rows ==> rows[id].taskLogId != row.taskLogId)
    && (forall id :: id in enrolled ==> enrolled[id].eventId != row.message.eventId)
  }

  ghost predicate EnrolmentsOk(
    rows: Table, nextId: nat, issued: set<int>, enrolled: map<nat, Message>, enrolments: map<int, Row>)
  {
    && (forall tx :: tx in enrolments ==> EnrolmentOk(rows, nextId, issued, enrolled, enrolments[tx]))
    && (forall a, b :: a in enrolments && b in enrolments && a != b ==> Distinct(enrolments[a], enrolments[b]))
  }

  predicate Distinct(a: Row, b: Row) {
    a.id != b.id && a.taskLogId != b.taskLogId && a.message.eventId != b.message.eventId
  }

  /** A transaction holds locks on committed pending rows, and its private row is the committed
      head of its batch pushed through exactly the statements executed so far. */
  ghost predicate TxOk(cfg: Config, rows: Table, now: Instant, p: string, tx: Publisher) {
    tx.InTx? ==>
      && tx.batch != []
      && (forall i :: 0 <= i < |tx.batch| ==> tx.batch[i] in rows && rows[tx.batch[i]].status == Pending)
      && tx.claimedAt <= now
      && rows[tx.batch[0]].nextAttemptAt <= tx.claimedAt
      && PrivateRow(cfg, rows[tx.batch[0]], now, p, tx)
  }

  ghost predicate PrivateRow(cfg: Config, head: Row, now: Instant, p: string, tx: Publisher)
    requires tx.InTx?
  {
    var claimed := ClaimRow(head, p, cfg.leaseSeconds, tx.claimedAt);
    && (!tx.phase.Marked? ==> tx.row == claimed)
    && (tx.phase.Marked? ==>
          && tx.claimedAt <= tx.row.updatedAt <= now
          && tx.row == MarkRow(cfg, claimed, tx.phase.outcome, tx.row.updatedAt))
  }

  ghost predicate TransactionsOk(cfg: Config, rows: Table, now: Instant, publishers: map<string, Publisher>) {
    forall p :: p in publishers ==> TxOk(cfg, rows, now, p, publishers[p])
  }

  ghost predicate LocksDisjoint(publishers: map<string, Publisher>) {
    forall p, q, id :: p in publishers && q in publishers && p != q && Holds(publishers[p], id) ==>
      !Holds(publishers[q], id)
  }

  ghost predicate LedgerOk(rows: Table, nextId: nat, issued: set<int>, l: Ledger) {
    && l.enrolled.Keys == rows.Keys + l.cleaned
    && rows.Keys !! l.cleaned
    && (forall id :: id in l.enrolled ==> id < nextId && l.enrolled[id].eventId in issued)
    && (forall i, j :: i in l.enrolled && j in l.enrolled && i != j ==> l.enrolled[i].eventId != l.enrolled[j].eventId)
    && (forall id :: id in rows ==> RowRecorded(l, id, rows[id]))
    && l.cleaned <= l.published <= l.enrolled.Keys
    && l.failed <= rows.Keys
    && (forall id :: id in l.retries ==> id in l.enrolled)
  }

  ghost predicate RowRecorded(l: Ledger, id: nat, row: Row) {
    && id in l.enrolled && l.enrolled[id] == row.message
    && (row.status == Published <==> id in l.published)
    && (row.status == Failed <==> id in l.failed)
    && row.attemptCount == l.retries[id]
  }

  /** Every message is an enrolled one, and for every row the arrivals are exactly accounted
      for: its publication, a send in flight, crashes after a send, and raises that arrived. */
  ghost predicate TrafficOk(publishers: map<string, Publisher>, l: Ledger, t: Traffic) {
    && (forall i :: 0 <= i < |t.log| ==> IsEnrolled(l, t.log[i]))
    && (forall id :: id in l.enrolled ==> Accounted(publishers, l, t, id))
    && (forall id :: id in t.crashedAfterSend || id in t.raised ==> id in l.enrolled)
    && t.raisedReached <= t.raised
  }

  ghost predicate IsEnrolled(l: Ledger, message: Message) {
    exists id :: id in l.enrolled && l.enrolled[id] == message
  }

  ghost predicate Accounted(publishers: map<string, Publisher>, l: Ledger, t: Traffic, id: nat)
    requires id in l.enrolled
  {
    Arrived(t.log, l.enrolled[id].eventId)
      == (if id in l.published then 1 else 0) + InFlight(publishers, id) + t.crashedAfterSend[id] + t.raisedReached[id]
  }

  ghost predicate Inv(cfg: Config, s: System) {
    && RowsOk(cfg, s.rows, s.nextId)
    && EnrolmentsOk(s.rows, s.nextId, s.issued, s.ledger.enrolled, s.enrolments)
    && TransactionsOk(cfg, s.rows, s.now, s.publishers)
    && LocksDisjoint(s.publishers)
    && LedgerOk(s.rows, s.nextId, s.issued, s.ledger)
    && TrafficOk(s.publishers, s.ledger, s.traffic)
  }

  lemma InitialInv(cfg: Config, s: System)
    requires Initial(s)
    ensures Inv(cfg, s)
  {
  }
}
