/** What the checkpoints hold: every success the payload and tokens of the one call that made it
    succeed, and everything else nothing. */
module AnalysisResults {
  import opened Outcomes
  import opened AnalysisResume
  import opened AnalysisRuns

  /** A checkpoint holds a result exactly if it has succeeded, and no tokens before. */
  predicate ResultsMatch(checkpoints: map<nat, Checkpoint>) {
    forall i :: i in checkpoints ==>
      && (checkpoints[i].state == Success <==> checkpoints[i].payload.Some?)
      && (checkpoints[i].state != Success ==> checkpoints[i].tokens == 0)
  }

  /** The call for `item` was answered by `e` and its second transaction committed. */
  predicate AnsweredBy(c: Checkpoint, item: Item, e: Event) {
    && (e.fault.NoFault? || e.fault.CrashAfterCommit?)
    && c.state == Success && c.fingerprint == item.fingerprint
    && c.payload == Some(e.payload) && c.tokens == e.tokens
  }

  /** The object that the caller gets for an item, and what it leaves in the table. */
  lemma FetchedDecides(s: Store, item: Item)
    ensures var (r, c) := Fetched(s, item); var i := item.index;
      && (i !in s.checkpoints ==>
            c == Checkpoint(s.nextId, item.fingerprint, Pending, 0, None, 0)
            && r == s.(checkpoints := s.checkpoints[i := c], nextId := s.nextId + 1))
      && (i in s.checkpoints ==>
            r == s && c == if s.checkpoints[i].fingerprint == item.fingerprint then s.checkpoints[i]
                           else Checkpoint(s.checkpoints[i].id, item.fingerprint, Pending, s.checkpoints[i].attempts, None, 0))
  {
  }

  /** The exception handler moves the newest checkpoint that is being processed to error, if it is
      let to, and nothing else. */
  lemma HandledDecides(s: Store, marks: bool, i: nat)
    requires IdsOk(s.checkpoints, s.nextId) && i in s.checkpoints
    ensures var newest := s.checkpoints[i].state == Processing
        && forall j :: j in s.checkpoints && s.checkpoints[j].state == Processing ==> s.checkpoints[j].id <= s.checkpoints[i].id;
      Handled(s, marks).checkpoints[i]
        == if marks && newest then s.checkpoints[i].(state := Error) else s.checkpoints[i]
  {
    if IsLatestProcessing(s.checkpoints, i) {
      assert forall k :: IsLatestProcessing(s.checkpoints, k) ==> k == i;
    }
  }

  /** Which outcome each fault has, and in which state it leaves the item, for a new item or one
      that has not succeeded. */
  lemma FaultDecides(s: Store, item: Item, e: Event)
    requires Inv(s) && Matches(s, item) && !Succeeded(s, item)
    ensures var (s', outcome) := Process(s, item, e);
      && outcome == (match e.fault
           case NoFault => Done
           case CancelRequested => Cancelled
           case PreLate => Late
           case PostLate => Late
           case BuildFails => Raised
           case PreFails => Raised
           case CallFails => Raised
           case PostFails => Raised
           case _ => Crashed)
      && (e.fault in {NoFault, CrashAfterCommit} <==> Succeeded(s', item))
      && (e.fault in {CallCrash, PostLate, CrashBeforeCommit} ==>
            item.index in s'.checkpoints && s'.checkpoints[item.index].state == Processing)
      && (e.fault in {CallFails, PostFails} ==>
            && item.index in s'.checkpoints
            && s'.checkpoints[item.index].state in {Processing, Error}
            && (!e.marks ==> s'.checkpoints[item.index].state == Processing)
            && (e.marks && (forall j :: j in s.checkpoints && j != item.index ==> s.checkpoints[j].state != Processing) ==>
                  s'.checkpoints[item.index].state == Error))
      && (e.fault in {CancelRequested, PreLate, PreCrash} ==> s' == s)
      && (e.fault in {BuildFails, PreFails} ==> s'.checkpoints.Keys == s.checkpoints.Keys && s'.tally == s.tally)
  {
    hide Handled, CallAndWrite, Paid, OnlySuccessesCharged, Tallied, UsageOk, IdsOk;
    var r := Fetched(s, item).0;
    HandledShape(s, e.marks);
    if e.fault !in {CancelRequested, BuildFails, PreLate, PreFails, PreCrash} {
      NextIsWritable(s, item, e.tokens);
      StartKeepsIds(s, item);
      CallDecides(Start(r, item.index), item.index, e);
    }
  }

  /** The same from the call on. */
  lemma CallDecides(c: Store, i: nat, e: Event)
    requires IdsOk(c.checkpoints, c.nextId) && i in c.checkpoints && c.checkpoints[i].state == Processing
    requires Writable(c, i, e.tokens) && e.fault !in {CancelRequested, BuildFails, PreLate, PreFails, PreCrash}
    ensures var (s', outcome) := CallAndWrite(c, i, e);
      && i in s'.checkpoints && s'.checkpoints[i].fingerprint == c.checkpoints[i].fingerprint
      && outcome == (match e.fault
           case NoFault => Done
           case PostLate => Late
           case CallFails => Raised
           case PostFails => Raised
           case _ => Crashed)
      && (e.fault in {NoFault, CrashAfterCommit} <==> s'.checkpoints[i].state == Success)
      && (e.fault in {CallCrash, PostLate, CrashBeforeCommit} ==> s'.checkpoints[i].state == Processing)
      && (e.fault in {CallFails, PostFails} ==>
            && s'.checkpoints[i].state in {Processing, Error}
            && (!e.marks ==> s'.checkpoints[i].state == Processing)
            && (e.marks && (forall j :: j in c.checkpoints && j != i ==> c.checkpoints[j].state != Processing) ==>
                  s'.checkpoints[i].state == Error))
  {
    hide Handled, Writable, IdsOk;
    HandledShape(Waste(c), e.marks);
    HandledDecides(Waste(c), e.marks, i);
  }

  lemma StartKeepsIds(s: Store, item: Item)
    requires IdsOk(s.checkpoints, s.nextId)
    ensures var t := Start(Fetched(s, item).0, item.index); IdsOk(t.checkpoints, t.nextId)
  {
  }

  lemma HandledResults(s: Store, marks: bool)
    requires ResultsMatch(s.checkpoints)
    ensures ResultsMatch(Handled(s, marks).checkpoints)
  {
  }

  lemma CallResults(c: Store, item: Item, e: Event)
    requires item.index in c.checkpoints && c.checkpoints[item.index].state == Processing
    requires c.checkpoints[item.index].fingerprint == item.fingerprint && ResultsMatch(c.checkpoints)
    requires e.fault !in {CancelRequested, BuildFails, PreLate, PreFails, PreCrash}
    ensures var (s', outcome) := CallAndWrite(c, item.index, e);
      && item.index in s'.checkpoints && !outcome.Skipped?
      && var row := s'.checkpoints[item.index];
      && ResultsMatch(s'.checkpoints)
      && (row.state == Success ==> AnsweredBy(row, item, e))
      && (outcome.Done? ==> row.state == Success)
      && (forall i :: i in s'.checkpoints && i != item.index && s'.checkpoints[i].state == Success ==>
            i in c.checkpoints && s'.checkpoints[i] == c.checkpoints[i])
  {
    HandledResults(Waste(c), e.marks);
  }

  /** Processing an item leaves results where there are successes; a new one is the item's own and
      holds what its call was answered, and a skipped item keeps what it had. */
  lemma ProcessResults(s: Store, item: Item, e: Event)
    requires ResultsMatch(s.checkpoints)
    ensures var (s', outcome) := Process(s, item, e);
      && ResultsMatch(s'.checkpoints)
      && (forall i :: i in s'.checkpoints && s'.checkpoints[i].state == Success ==>
            || (i in s.checkpoints && s'.checkpoints[i] == s.checkpoints[i])
            || (i == item.index && AnsweredBy(s'.checkpoints[i], item, e)))
      && (outcome.Done? ==> item.index in s'.checkpoints && AnsweredBy(s'.checkpoints[item.index], item, e))
      && (outcome.Done? ==> !(item.index in s.checkpoints && s.checkpoints[item.index].state == Success))
      && (outcome.Skipped? ==> s' == s && Succeeded(s, item))
  {
    hide Handled, CallAndWrite, AnsweredBy;
    HandledResults(s, e.marks);
    HandledStands(s, e.marks);
    HandledShape(s, e.marks);
    var (r, c) := Fetched(s, item);
    if Claimable(r.checkpoints[item.index], c) && e.fault !in {CancelRequested, BuildFails, PreLate, PreFails, PreCrash} {
      CallResults(Start(r, item.index), item, e);
    }
  }

  // ---------------------------------------------------------------------------
  // One run
  // ---------------------------------------------------------------------------

  /** Every success after the loop was there before it, or is the answer to one of its items. */
  lemma {:induction false} LoopResults(
    s: Store, plan: seq<Item>, events: seq<Event>, cancelAtEnd: bool, k: nat, i: nat) returns (j: nat)
    requires ResultsMatch(s.checkpoints) && |events| == |plan| && k <= |plan|
    ensures var s' := RunFrom(s, plan, events, cancelAtEnd, k).0;
      && ResultsMatch(s'.checkpoints)
      && (i in s'.checkpoints && s'.checkpoints[i].state == Success ==>
            || (i in s.checkpoints && s'.checkpoints[i] == s.checkpoints[i])
            || (k <= j < |plan| && plan[j].index == i && AnsweredBy(s'.checkpoints[i], plan[j], events[j])))
    decreases |plan| - k
  {
    hide Process, AnsweredBy, ResultsMatch;
    j := k;
    if k < |plan| {
      var (next, outcome) := Process(s, plan[k], events[k]);
      ProcessResults(s, plan[k], events[k]);
      if outcome.Done? || outcome.Skipped? {
        LoopStands(next, plan, events, cancelAtEnd, k + 1);
        j := LoopResults(next, plan, events, cancelAtEnd, k + 1, i);
        var s' := RunFrom(s, plan, events, cancelAtEnd, k).0;
        if i in s'.checkpoints && i in next.checkpoints && s'.checkpoints[i] == next.checkpoints[i] {
          j := k;
        }
      }
    }
  }

  /** A finished run leaves for every item what its call was answered, or what the item held when
      it had succeeded before. */
  lemma {:induction false} FinishedRunResults(s: Store, plan: seq<Item>, events: seq<Event>, cancelAtEnd: bool, k: nat)
    requires ResultsMatch(s.checkpoints) && |events| == |plan| && k <= |plan| && DistinctItems(plan)
    requires RunFrom(s, plan, events, cancelAtEnd, k).1.Finished?
    ensures var s' := RunFrom(s, plan, events, cancelAtEnd, k).0;
      forall j :: k <= j < |plan| ==>
        && plan[j].index in s'.checkpoints
        && if Succeeded(s, plan[j]) then s'.checkpoints[plan[j].index] == s.checkpoints[plan[j].index]
           else AnsweredBy(s'.checkpoints[plan[j].index], plan[j], events[j])
    decreases |plan| - k
  {
    hide Process, AnsweredBy, ResultsMatch;
    if k < |plan| {
      var (next, outcome) := Process(s, plan[k], events[k]);
      ProcessResults(s, plan[k], events[k]);
      ProcessSucceeds(s, plan[k], events[k]);
      FinishedRunResults(next, plan, events, cancelAtEnd, k + 1);
      LoopStands(next, plan, events, cancelAtEnd, k + 1);
    }
  }

  // ---------------------------------------------------------------------------
  // Any number of runs
  // ---------------------------------------------------------------------------

  lemma {:induction false} RunsResults(s: Store, runs: seq<Run>, i: nat) returns (r: nat, j: nat)
    requires ResultsMatch(s.checkpoints) && forall r :: 0 <= r < |runs| ==> IsRun(runs[r])
    ensures var s' := AfterRuns(s, runs);
      && ResultsMatch(s'.checkpoints)
      && (i in s'.checkpoints && s'.checkpoints[i].state == Success ==>
            || (i in s.checkpoints && s'.checkpoints[i] == s.checkpoints[i])
            || (r < |runs| && j < |runs[r].plan| && runs[r].plan[j].index == i
                && AnsweredBy(s'.checkpoints[i], runs[r].plan[j], runs[r].events[j])))
    decreases |runs|
  {
    hide RunFrom, AnsweredBy, ResultsMatch;
    r, j := 0, 0;
    if runs != [] {
      var run, next := runs[0], Rerun(s, runs[0]).0;
      var here := LoopResults(s, run.plan, run.events, run.cancelAtEnd, 0, i);
      r, j := RunsResults(next, runs[1..], i);
      SuccessesStand(next, runs[1..]);
      var s' := AfterRuns(next, runs[1..]);
      if i in s'.checkpoints && i in next.checkpoints && s'.checkpoints[i] == next.checkpoints[i] {
        r, j := 0, here;
      } else {
        r := r + 1;
      }
    }
  }

  /** Over any runs, with any faults and any change of inputs: a checkpoint is a success exactly
      if it holds a payload, and payload and tokens are those that one call for this very item and
      input was answered in a run that committed them. */
  lemma EverySuccessIsAnAnswer(runs: seq<Run>, i: nat) returns (r: nat, j: nat)
    requires forall r :: 0 <= r < |runs| ==> IsRun(runs[r])
    requires i in AfterRuns(NEW_SESSION, runs).checkpoints
    ensures var c := AfterRuns(NEW_SESSION, runs).checkpoints[i];
      && (c.state == Success <==> c.payload.Some?)
      && (c.state != Success ==> c.tokens == 0)
      && (c.state == Success ==>
            && r < |runs| && j < |runs[r].plan| && runs[r].plan[j] == Item(i, c.fingerprint)
            && var e := runs[r].events[j];
              && (e.fault == NoFault || e.fault == CrashAfterCommit)
              && c.payload == Some(e.payload) && c.tokens == e.tokens)
  {
    hide AfterRuns;
    r, j := RunsResults(NEW_SESSION, runs, i);
  }

  // ---------------------------------------------------------------------------
  // Attempts
  // ---------------------------------------------------------------------------

  function AttemptsOf(s: Store, i: nat): nat {
    if i in s.checkpoints then s.checkpoints[i].attempts else 0
  }

  /** The LLM calls for item `i` in the loop from item `k` on. */
  ghost function CallsInLoop(s: Store, plan: seq<Item>, events: seq<Event>, k: nat, i: nat): int
    requires |events| == |plan| && k <= |plan|
    decreases |plan| - k
  {
    if k == |plan| then 0
    else
      var (next, outcome) := Process(s, plan[k], events[k]);
      (if plan[k].index == i then next.tally.calls - s.tally.calls else 0)
      + if outcome.Done? || outcome.Skipped? then CallsInLoop(next, plan, events, k + 1, i) else 0
  }

  ghost function CallsInRuns(s: Store, runs: seq<Run>, i: nat): int
    requires forall r :: 0 <= r < |runs| ==> IsRun(runs[r])
    decreases |runs|
  {
    if runs == [] then 0
    else
      assert IsRun(runs[0]);
      CallsInLoop(s, runs[0].plan, runs[0].events, 0, i) + CallsInRuns(Rerun(s, runs[0]).0, runs[1..], i)
  }

  lemma HandledAttempts(s: Store, marks: bool, i: nat)
    ensures AttemptsOf(Handled(s, marks), i) == AttemptsOf(s, i)
  {
  }

  lemma CallAttempts(c: Store, item: Item, e: Event, i: nat)
    requires item.index in c.checkpoints
    ensures AttemptsOf(CallAndWrite(c, item.index, e).0, i) == AttemptsOf(c, i)
    ensures CallAndWrite(c, item.index, e).0.tally.calls == c.tally.calls
  {
  }

  lemma ProcessAttempts(s: Store, item: Item, e: Event, i: nat)
    ensures var s' := Process(s, item, e).0;
      && s.tally.calls <= s'.tally.calls <= s.tally.calls + 1
      && AttemptsOf(s', i) == AttemptsOf(s, i) + (if item.index == i then s'.tally.calls - s.tally.calls else 0)
  {
    hide Handled, CallAndWrite;
    HandledAttempts(s, e.marks, i);
    HandledShape(s, e.marks);
    var r := Fetched(s, item).0;
    CallAttempts(Start(r, item.index), item, e, i);
  }

  lemma {:induction false} LoopAttempts(s: Store, plan: seq<Item>, events: seq<Event>, cancelAtEnd: bool, k: nat, i: nat)
    requires |events| == |plan| && k <= |plan|
    ensures AttemptsOf(RunFrom(s, plan, events, cancelAtEnd, k).0, i)
         == AttemptsOf(s, i) + CallsInLoop(s, plan, events, k, i)
    decreases |plan| - k
  {
    hide Process, AttemptsOf;
    if k < |plan| {
      ProcessAttempts(s, plan[k], events[k], i);
      LoopAttempts(Process(s, plan[k], events[k]).0, plan, events, cancelAtEnd, k + 1, i);
    }
  }

  /** The attempt count of a checkpoint is the number of LLM calls ever made for its item. */
  lemma {:induction false} AttemptsAreCalls(s: Store, runs: seq<Run>, i: nat)
    requires forall r :: 0 <= r < |runs| ==> IsRun(runs[r])
    ensures AttemptsOf(AfterRuns(s, runs), i) == AttemptsOf(s, i) + CallsInRuns(s, runs, i)
    decreases |runs|
  {
    hide AttemptsOf, RunFrom, CallsInLoop;
    if runs != [] {
      LoopAttempts(s, runs[0].plan, runs[0].events, runs[0].cancelAtEnd, 0, i);
      AttemptsAreCalls(Rerun(s, runs[0]).0, runs[1..], i);
    }
  }
}
