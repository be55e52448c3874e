/** Checkpointed session analysis: one short transaction before and one after every LLM call, so
    that an interrupted run can be resumed without paying twice. One session and one analysis
    run id; runs do not overlap. */
module AnalysisResume {
  import opened Outcomes

  datatype State = Pending | Processing | Error | Success

  datatype Checkpoint = Checkpoint(
    id: nat, fingerprint: int, state: State, attempts: nat, payload: Option<int>, tokens: int)

  /** `checkpointId` is UNIQUE. */
  datatype UsageRow = UsageRow(checkpointId: nat, tokens: int)

  /** History only: LLM calls, committed successes, and calls whose success was not committed. */
  datatype Tally = Tally(calls: nat, commits: nat, wasted: nat)

  datatype Store = Store(checkpoints: map<nat, Checkpoint>, usage: seq<UsageRow>, nextId: nat, tally: Tally)

  /** One file of the plan, with the fingerprint of the prompts and media it is analysed with. */
  datatype Item = Item(index: nat, fingerprint: int)

  datatype Fault =
    | NoFault
    | CancelRequested
    | BuildFails
    | PreLate | PreFails | PreCrash
    | CallFails | CallCrash
    | PostLate | PostFails | CrashBeforeCommit | CrashAfterCommit

  /** What happens to one item: where it is interrupted, what the LLM answers, and whether the
      exception handler gets to write the error state (a deadlock or a lost lease keeps it from it). */
  datatype Event = Event(fault: Fault, payload: int, tokens: int, marks: bool)

  datatype Outcome = Finished | Done | Skipped | Late | Raised | Crashed | Cancelled

  // ---------------------------------------------------------------------------
  // One item as a function
  // ---------------------------------------------------------------------------

  /** `get_or_create_checkpoint`: the table, and the checkpoint object in the caller's memory. The
      session does not flush on its own, so a reset for a new fingerprint stays in the object. */
  function Fetched(s: Store, item: Item): (r: (Store, Checkpoint))
    ensures item.index in r.0.checkpoints && r.0.checkpoints[item.index].id == r.1.id
    ensures r.1.fingerprint == item.fingerprint
  {
    if item.index !in s.checkpoints then
      var c := Checkpoint(s.nextId, item.fingerprint, Pending, 0, None, 0);
      (s.(checkpoints := s.checkpoints[item.index := c], nextId := s.nextId + 1), c)
    else
      var c := s.checkpoints[item.index];
      (s, if c.fingerprint == item.fingerprint then c
          else c.(state := Pending, fingerprint := item.fingerprint, payload := None, tokens := 0))
  }

  /** `UPDATE ... WHERE id = ... AND input_fingerprint = ... AND state IN (resumable)`, for the
      values of the object against the row. */
  predicate Claimable(row: Checkpoint, c: Checkpoint) {
    row.id == c.id && row.fingerprint == c.fingerprint && row.state in {Pending, Processing, Error}
  }

  /** `mark_checkpoint_processing`, and the LLM call that follows it. */
  function Start(s: Store, i: nat): Store
    requires i in s.checkpoints
  {
    var c := s.checkpoints[i];
    s.(checkpoints := s.checkpoints[i := c.(state := Processing, attempts := c.attempts + 1)],
       tally := s.tally.(calls := s.tally.calls + 1))
  }

  function Waste(s: Store): Store {
    s.(tally := s.tally.(wasted := s.tally.wasted + 1))
  }

  ghost predicate Charged(usage: seq<UsageRow>, id: nat) {
    exists k :: 0 <= k < |usage| && usage[k].checkpointId == id
  }

  /** The second usage row of a checkpoint violates the UNIQUE constraint. */
  ghost predicate Writable(s: Store, i: nat, tokens: int)
    requires i in s.checkpoints
  {
    tokens > 0 ==> !Charged(s.usage, s.checkpoints[i].id)
  }

  /** `write_sub_chunk_checkpoint` and `write_token_usage`, committed. */
  function Written(s: Store, i: nat, payload: int, tokens: int): Store
    requires i in s.checkpoints
  {
    var c := s.checkpoints[i];
    s.(checkpoints := s.checkpoints[i := c.(state := Success, payload := Some(payload), tokens := tokens)],
       usage := if tokens > 0 then s.usage + [UsageRow(c.id, tokens)] else s.usage,
       tally := s.tally.(commits := s.tally.commits + 1))
  }

  predicate IsLatestProcessing(checkpoints: map<nat, Checkpoint>, i: nat) {
    && i in checkpoints && checkpoints[i].state == Processing
    && forall j :: j in checkpoints && checkpoints[j].state == Processing ==> checkpoints[j].id <= checkpoints[i].id
  }

  /** The exception handler: the latest checkpoint in `Processing` becomes `Error`. */
  ghost function Handled(s: Store, marks: bool): Store {
    if marks && exists i :: IsLatestProcessing(s.checkpoints, i) then
      var i :| IsLatestProcessing(s.checkpoints, i);
      s.(checkpoints := s.checkpoints[i := s.checkpoints[i].(state := Error)])
    else s
  }

  ghost function Process(s: Store, item: Item, e: Event): (Store, Outcome) {
    if e.fault.CancelRequested? then (s, Cancelled)
    else if e.fault.BuildFails? then (Handled(s, e.marks), Raised)
    else
      var (r, c) := Fetched(s, item);
      if e.fault.PreFails? then (Handled(s, e.marks), Raised)
      else if e.fault.PreCrash? then (s, Crashed)
      else if c.state == Success then (r, Skipped)
      else if e.fault.PreLate? || !Claimable(r.checkpoints[item.index], c) then (s, Late)
      else CallAndWrite(Start(r, item.index), item.index, e)
  }

  /** From the committed `Processing` state on. */
  ghost function CallAndWrite(c: Store, i: nat, e: Event): (Store, Outcome)
    requires i in c.checkpoints
  {
    match e.fault
    case CallFails => (Handled(Waste(c), e.marks), Raised)
    case CallCrash => (Waste(c), Crashed)
    case PostLate => (Waste(c), Late)
    case PostFails => (Handled(Waste(c), e.marks), Raised)
    case CrashBeforeCommit => (Waste(c), Crashed)
    case _ =>
      if !Writable(c, i, e.tokens) then (Handled(Waste(c), e.marks), Raised)
      else (Written(c, i, e.payload, e.tokens), if e.fault.CrashAfterCommit? then Crashed else Done)
  }

  /** The loop from item `k` on; `cancelAtEnd` is the answer of the fence after the loop. */
  ghost function RunFrom(s: Store, plan: seq<Item>, events: seq<Event>, cancelAtEnd: bool, k: nat): (Store, Outcome)
    requires |events| == |plan| && k <= |plan|
    decreases |plan| - k
  {
    if k == |plan| then (s, if cancelAtEnd then Cancelled else Finished)
    else
      var (s', outcome) := Process(s, plan[k], events[k]);
      if outcome.Done? || outcome.Skipped? then RunFrom(s', plan, events, cancelAtEnd, k + 1) else (s', outcome)
  }

  // ---------------------------------------------------------------------------
  // The orchestrator, statement by statement
  // ---------------------------------------------------------------------------

  ghost predicate IdsOk(checkpoints: map<nat, Checkpoint>, nextId: nat) {
    && (forall i :: i in checkpoints ==> checkpoints[i].id < nextId)
    && (forall i, j :: i in checkpoints && j in checkpoints && i != j ==> checkpoints[i].id != checkpoints[j].id)
  }

  lemma FetchKeepsIds(s: Store, item: Item)
    requires IdsOk(s.checkpoints, s.nextId)
    ensures var r := Fetched(s, item).0; IdsOk(r.checkpoints, r.nextId)
  {
  }

  lemma UpdateKeepsIds(checkpoints: map<nat, Checkpoint>, nextId: nat, i: nat, c: Checkpoint)
    requires IdsOk(checkpoints, nextId) && i in checkpoints && c.id == checkpoints[i].id
    ensures IdsOk(checkpoints[i := c], nextId)
  {
  }

  lemma HandledKeepsIds(s: Store, marks: bool)
    requires IdsOk(s.checkpoints, s.nextId)
    ensures var h := Handled(s, marks); IdsOk(h.checkpoints, h.nextId)
  {
  }

  /** `... WHERE state = 'processing' ORDER BY id DESC LIMIT 1` */
  method LatestProcessing(checkpoints: map<nat, Checkpoint>) returns (current: Option<nat>)
    ensures current.Some? ==> IsLatestProcessing(checkpoints, current.value)
    ensures current.None? ==> forall i :: i in checkpoints ==> checkpoints[i].state != Processing
  {
    current := None;
    var rest := checkpoints.Keys;
    while rest != {}
      invariant rest <= checkpoints.Keys
      invariant current.None? ==> forall j :: j in checkpoints && j !in rest ==> checkpoints[j].state != Processing
      invariant current.Some? ==>
        && current.value in checkpoints && checkpoints[current.value].state == Processing
        && forall j :: j in checkpoints && j !in rest && checkpoints[j].state == Processing ==>
             checkpoints[j].id <= checkpoints[current.value].id
      decreases rest
    {
      var i :| i in rest;
      rest := rest - {i};
      if checkpoints[i].state == Processing && (current.None? || checkpoints[i].id > checkpoints[current.value].id) {
        current := Some(i);
      }
    }
  }

  lemma ProcessCalls(s: Store, item: Item, e: Event)
    ensures var (s', outcome) := Process(s, item, e);
      && !outcome.Finished?
      && (outcome.Done? ==> s'.tally.calls == s.tally.calls + 1)
      && (outcome.Skipped? ==> s'.tally.calls == s.tally.calls)
  {
  }

  class Orchestrator {
    var checkpoints: map<nat, Checkpoint>
    var usage: seq<UsageRow>
    var nextId: nat
    var tally: Tally

    constructor (s: Store)
      ensures Contents() == s
    {
      checkpoints, usage, nextId, tally := s.checkpoints, s.usage, s.nextId, s.tally;
    }

    function Contents(): Store
      reads this
    {
      Store(checkpoints, usage, nextId, tally)
    }

    method Rollback(s: Store)
      modifies this
      ensures Contents() == s
    {
      checkpoints, usage, nextId, tally := s.checkpoints, s.usage, s.nextId, s.tally;
    }

    method GetOrCreateCheckpoint(item: Item) returns (c: Checkpoint)
      modifies this
      ensures (Contents(), c) == Fetched(old(Contents()), item)
    {
      if item.index in checkpoints {
        c := checkpoints[item.index];
        if c.fingerprint != item.fingerprint {
          c := c.(state := Pending, fingerprint := item.fingerprint, payload := None, tokens := 0);
        }
        return;
      }
      c := Checkpoint(nextId, item.fingerprint, Pending, 0, None, 0);
      checkpoints := checkpoints[item.index := c];
      nextId := nextId + 1;
    }

    /** Tells whether the UPDATE has matched the row. */
    method MarkCheckpointProcessing(i: nat, c: Checkpoint) returns (updated: bool)
      requires i in checkpoints
      modifies this`checkpoints
      ensures updated <==> Claimable(old(checkpoints)[i], c)
      ensures checkpoints == if !updated then old(checkpoints) else
        old(checkpoints)[i := old(checkpoints)[i].(state := Processing, attempts := old(checkpoints)[i].attempts + 1)]
    {
      var row := checkpoints[i];
      updated := row.id == c.id && row.fingerprint == c.fingerprint && row.state in {Pending, Processing, Error};
      if updated {
        checkpoints := checkpoints[i := row.(state := Processing, attempts := row.attempts + 1)];
      }
    }

    /** Inserting a second row for a checkpoint raises. */
    method WriteTokenUsage(checkpointId: nat, tokens: int) returns (ok: bool)
      modifies this`usage
      ensures ok <==> (tokens > 0 ==> !Charged(old(usage), checkpointId))
      ensures usage == if ok && tokens > 0 then old(usage) + [UsageRow(checkpointId, tokens)] else old(usage)
    {
      ok := true;
      if tokens <= 0 {
        return;
      }
      for k := 0 to |usage|
        invariant forall j :: 0 <= j < k ==> usage[j].checkpointId != checkpointId
      {
        if usage[k].checkpointId == checkpointId {
          return false;
        }
      }
      usage := usage + [UsageRow(checkpointId, tokens)];
    }

    method HandleLoopException(marks: bool)
      requires IdsOk(checkpoints, nextId)
      modifies this`checkpoints
      ensures Contents() == Handled(old(Contents()), marks)
    {
      if !marks {
        return;
      }
      var current := LatestProcessing(checkpoints);
      if current.Some? {
        checkpoints := checkpoints[current.value := checkpoints[current.value].(state := Error)];
      }
    }

    method RunOneSubChunk(item: Item, e: Event) returns (outcome: Outcome)
      requires IdsOk(checkpoints, nextId)
      modifies this
      ensures (Contents(), outcome) == Process(old(Contents()), item, e)
      ensures IdsOk(checkpoints, nextId)
    {
      hide Handled, CallAndWrite, IdsOk;
      HandledKeepsIds(Contents(), e.marks);
      FetchKeepsIds(Contents(), item);
      if e.fault.CancelRequested? {
        return Cancelled;
      }
      if e.fault.BuildFails? {
        HandleLoopException(e.marks);
        return Raised;
      }
      var before := Contents();
      var c := GetOrCreateCheckpoint(item);
      if e.fault.PreFails? {
        Rollback(before);
        HandleLoopException(e.marks);
        return Raised;
      }
      if e.fault.PreCrash? {
        Rollback(before);
        return Crashed;
      }
      if c.state == Success {
        return Skipped;
      }
      if e.fault.PreLate? {
        Rollback(before);
        return Late;
      }
      var row := checkpoints[item.index];
      UpdateKeepsIds(checkpoints, nextId, item.index, row.(state := Processing, attempts := row.attempts + 1));
      var updated := MarkCheckpointProcessing(item.index, c);
      if !updated {
        Rollback(before);
        return Late;
      }
      tally := tally.(calls := tally.calls + 1);
      outcome := CallLlmAndWrite(item.index, e);
    }

    method CallLlmAndWrite(i: nat, e: Event) returns (outcome: Outcome)
      requires IdsOk(checkpoints, nextId) && i in checkpoints
      modifies this
      ensures (Contents(), outcome) == CallAndWrite(old(Contents()), i, e)
      ensures IdsOk(checkpoints, nextId)
    {
      hide Handled, Charged, IdsOk;
      HandledKeepsIds(Waste(Contents()), e.marks);
      if e.fault.CallFails? || e.fault.CallCrash? {
        tally := tally.(wasted := tally.wasted + 1);
        if e.fault.CallCrash? {
          return Crashed;
        }
        HandleLoopException(e.marks);
        return Raised;
      }
      if e.fault.PostLate? {
        tally := tally.(wasted := tally.wasted + 1);
        return Late;
      }
      var before := Contents();
      var c := checkpoints[i];
      UpdateKeepsIds(checkpoints, nextId, i, c.(state := Success, payload := Some(e.payload), tokens := e.tokens));
      checkpoints := checkpoints[i := c.(state := Success, payload := Some(e.payload), tokens := e.tokens)];
      var inserted := WriteTokenUsage(c.id, e.tokens);
      if inserted && e.fault !in {PostFails, CrashBeforeCommit} {
        tally := tally.(commits := tally.commits + 1);
        return if e.fault.CrashAfterCommit? then Crashed else Done;
      }
      Rollback(before);
      tally := tally.(wasted := tally.wasted + 1);
      if e.fault.CrashBeforeCommit? {
        return Crashed;
      }
      HandleLoopException(e.marks);
      return Raised;
    }

    method RunSubChunkLoop(plan: seq<Item>, events: seq<Event>, cancelAtEnd: bool) returns (subChunkCount: nat, outcome: Outcome)
      requires IdsOk(checkpoints, nextId) && |events| == |plan|
      modifies this
      ensures (Contents(), outcome) == RunFrom(old(Contents()), plan, events, cancelAtEnd, 0)
      ensures IdsOk(checkpoints, nextId)
      ensures outcome.Finished? ==> subChunkCount == tally.calls - old(tally.calls)
    {
      hide Process, IdsOk;
      subChunkCount := 0;
      var k := 0;
      while k < |plan|
        invariant 0 <= k <= |plan| && IdsOk(checkpoints, nextId)
        invariant RunFrom(Contents(), plan, events, cancelAtEnd, k) == RunFrom(old(Contents()), plan, events, cancelAtEnd, 0)
        invariant subChunkCount == tally.calls - old(tally.calls)
      {
        ProcessCalls(Contents(), plan[k], events[k]);
        outcome := RunOneSubChunk(plan[k], events[k]);
        if !outcome.Done? && !outcome.Skipped? {
          return;
        }
        if outcome.Done? {
          subChunkCount := subChunkCount + 1;
        }
        k := k + 1;
      }
      outcome := if cancelAtEnd then Cancelled else Finished;
    }
  }
}
