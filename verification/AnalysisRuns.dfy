/** Any number of interrupted analysis runs over one session: what is charged, what is wasted,
    what is resumed, and what a changed input does to an item that already has a checkpoint. */
module AnalysisRuns {
  import opened Outcomes
  import opened AnalysisResume

  // ---------------------------------------------------------------------------
  // The invariant
  // ---------------------------------------------------------------------------

  function SuccessIds(checkpoints: map<nat, Checkpoint>): set<nat> {
    set i | i in checkpoints.Keys && checkpoints[i].state == Success
  }

  /** At most one usage row per checkpoint. */
  ghost predicate UsageOk(usage: seq<UsageRow>, nextId: nat) {
    && (forall k :: 0 <= k < |usage| ==> usage[k].checkpointId < nextId && usage[k].tokens > 0)
    && (forall j, k :: 0 <= j < k < |usage| ==> usage[j].checkpointId != usage[k].checkpointId)
  }

  /** A success that cost tokens has the usage row for exactly these tokens. */
  ghost predicate Paid(checkpoints: map<nat, Checkpoint>, usage: seq<UsageRow>) {
    forall i :: i in checkpoints && checkpoints[i].state == Success && checkpoints[i].tokens > 0 ==>
      UsageRow(checkpoints[i].id, checkpoints[i].tokens) in usage
  }

  /** Only a success has a usage row. */
  ghost predicate OnlySuccessesCharged(checkpoints: map<nat, Checkpoint>, usage: seq<UsageRow>) {
    forall i :: i in checkpoints && Charged(usage, checkpoints[i].id) ==> checkpoints[i].state == Success
  }

  /** Every LLM call is a committed success, a waste, or one of the `pending` still running; and
      every committed success still stands. */
  ghost predicate Tallied(checkpoints: map<nat, Checkpoint>, tally: Tally, pending: nat) {
    && tally.calls == tally.commits + tally.wasted + pending
    && tally.commits == |SuccessIds(checkpoints)|
  }

  ghost predicate Consistent(s: Store, pending: nat) {
    && IdsOk(s.checkpoints, s.nextId)
    && UsageOk(s.usage, s.nextId)
    && Paid(s.checkpoints, s.usage)
    && OnlySuccessesCharged(s.checkpoints, s.usage)
    && Tallied(s.checkpoints, s.tally, pending)
  }

  ghost predicate Inv(s: Store) {
    Consistent(s, 0)
  }

  lemma FetchKeepsInv(s: Store, item: Item)
    requires Inv(s)
    ensures Inv(Fetched(s, item).0)
  {
    var r := Fetched(s, item).0;
    assert SuccessIds(r.checkpoints) == SuccessIds(s.checkpoints);
    assert !Charged(s.usage, s.nextId);
  }

  lemma StartKeeps(s: Store, i: nat)
    requires Inv(s) && i in s.checkpoints && s.checkpoints[i].state != Success
    ensures Consistent(Start(s, i), 1)
  {
    assert SuccessIds(Start(s, i).checkpoints) == SuccessIds(s.checkpoints);
  }

  lemma ChargingKeepsUsage(usage: seq<UsageRow>, nextId: nat, id: nat, tokens: int)
    requires UsageOk(usage, nextId) && id < nextId && tokens > 0 && !Charged(usage, id)
    ensures UsageOk(usage + [UsageRow(id, tokens)], nextId)
  {
  }

  lemma SuccessKeepsPaid(checkpoints: map<nat, Checkpoint>, usage: seq<UsageRow>, i: nat, c: Checkpoint)
    requires Paid(checkpoints, usage)
    ensures Paid(checkpoints[i := c], if c.tokens > 0 then usage + [UsageRow(c.id, c.tokens)] else usage)
  {
  }

  lemma SuccessKeepsCharged(
    checkpoints: map<nat, Checkpoint>, nextId: nat, usage: seq<UsageRow>, i: nat, c: Checkpoint)
    requires OnlySuccessesCharged(checkpoints, usage) && IdsOk(checkpoints, nextId)
    requires i in checkpoints && c.state == Success && c.id == checkpoints[i].id
    ensures OnlySuccessesCharged(checkpoints[i := c], usage)
    ensures OnlySuccessesCharged(checkpoints[i := c], usage + [UsageRow(c.id, c.tokens)])
  {
  }

  /** The UNIQUE constraint on the usage log never fires: what is still to succeed has not been
      charged. */
  lemma UsageNeverConflicts(s: Store, pending: nat, i: nat, tokens: int)
    requires Consistent(s, pending) && i in s.checkpoints && s.checkpoints[i].state != Success
    ensures Writable(s, i, tokens)
  {
  }

  lemma WrittenKeeps(s: Store, i: nat, payload: int, tokens: int)
    requires Consistent(s, 1) && i in s.checkpoints && s.checkpoints[i].state != Success
    ensures Inv(Written(s, i, payload, tokens))
  {
    UsageNeverConflicts(s, 1, i, tokens);
    hide UsageOk, Paid, Charged, OnlySuccessesCharged;
    var w := Written(s, i, payload, tokens);
    var c := w.checkpoints[i];
    assert SuccessIds(w.checkpoints) == SuccessIds(s.checkpoints) + {i};
    UpdateKeepsIds(s.checkpoints, s.nextId, i, c);
    SuccessKeepsPaid(s.checkpoints, s.usage, i, c);
    SuccessKeepsCharged(s.checkpoints, s.nextId, s.usage, i, c);
    if tokens > 0 {
      ChargingKeepsUsage(s.usage, s.nextId, c.id, tokens);
    }
  }

  lemma HandledKeeps(s: Store, marks: bool, pending: nat)
    requires Consistent(s, pending)
    ensures Consistent(Handled(s, marks), pending)
  {
    assert SuccessIds(Handled(s, marks).checkpoints) == SuccessIds(s.checkpoints);
  }

  lemma ProcessKeepsInv(s: Store, item: Item, e: Event)
    requires Inv(s)
    ensures Inv(Process(s, item, e).0)
  {
    hide IdsOk, UsageOk, Paid, OnlySuccessesCharged, Tallied, Handled, CallAndWrite;
    HandledKeeps(s, e.marks, 0);
    FetchKeepsInv(s, item);
    var (r, c) := Fetched(s, item);
    if Claimable(r.checkpoints[item.index], c) {
      StartKeeps(r, item.index);
      CallKeepsInv(Start(r, item.index), item.index, e);
    }
  }

  lemma CallKeepsInv(c: Store, i: nat, e: Event)
    requires Consistent(c, 1) && i in c.checkpoints && c.checkpoints[i].state != Success
    ensures Inv(CallAndWrite(c, i, e).0)
  {
    hide IdsOk, UsageOk, Paid, OnlySuccessesCharged, Handled, Charged;
    assert Inv(Waste(c));
    HandledKeeps(Waste(c), e.marks, 0);
    WrittenKeeps(c, i, e.payload, e.tokens);
  }

  lemma {:induction false} LoopKeepsInv(s: Store, plan: seq<Item>, events: seq<Event>, cancelAtEnd: bool, k: nat)
    requires Inv(s) && |events| == |plan| && k <= |plan|
    ensures Inv(RunFrom(s, plan, events, cancelAtEnd, k).0)
    decreases |plan| - k
  {
    hide Inv, Process;
    if k < |plan| {
      ProcessKeepsInv(s, plan[k], events[k]);
      LoopKeepsInv(Process(s, plan[k], events[k]).0, plan, events, cancelAtEnd, k + 1);
    }
  }

  // ---------------------------------------------------------------------------
  // Any number of runs
  // ---------------------------------------------------------------------------

  datatype Run = Run(plan: seq<Item>, events: seq<Event>, cancelAtEnd: bool)

  predicate IsRun(run: Run) {
    |run.events| == |run.plan|
  }

  ghost function Rerun(s: Store, run: Run): (Store, Outcome)
    requires IsRun(run)
  {
    RunFrom(s, run.plan, run.events, run.cancelAtEnd, 0)
  }

  ghost function AfterRuns(s: Store, runs: seq<Run>): Store
    requires forall i :: 0 <= i < |runs| ==> IsRun(runs[i])
    decreases |runs|
  {
    if runs == [] then s else AfterRuns(Rerun(s, runs[0]).0, runs[1..])
  }

  const NEW_SESSION := Store(map[], [], 0, Tally(0, 0, 0))

  lemma {:induction false} RunsKeepInv(s: Store, runs: seq<Run>)
    requires Inv(s) && forall i :: 0 <= i < |runs| ==> IsRun(runs[i])
    ensures Inv(AfterRuns(s, runs))
    decreases |runs|
  {
    hide Inv, RunFrom;
    if runs != [] {
      LoopKeepsInv(s, runs[0].plan, runs[0].events, runs[0].cancelAtEnd, 0);
      RunsKeepInv(Rerun(s, runs[0]).0, runs[1..]);
    }
  }

  /** Over any runs, with any faults and any change of inputs: no checkpoint is charged twice,
      every success that cost tokens is charged exactly those, nothing else is charged, and every
      LLM call is either a success that stands or one whose success was never committed. */
  lemma EveryRunIsAccounted(runs: seq<Run>)
    requires forall i :: 0 <= i < |runs| ==> IsRun(runs[i])
    ensures var s := AfterRuns(NEW_SESSION, runs);
      && UsageOk(s.usage, s.nextId) && Paid(s.checkpoints, s.usage) && OnlySuccessesCharged(s.checkpoints, s.usage)
      && s.tally.calls == |SuccessIds(s.checkpoints)| + s.tally.wasted
  {
    hide *;
    NewSessionInv();
    RunsKeepInv(NEW_SESSION, runs);
    InvAccounts(AfterRuns(NEW_SESSION, runs));
  }

  lemma InvAccounts(s: Store)
    requires Inv(s)
    ensures UsageOk(s.usage, s.nextId) && Paid(s.checkpoints, s.usage) && OnlySuccessesCharged(s.checkpoints, s.usage)
    ensures s.tally.calls == |SuccessIds(s.checkpoints)| + s.tally.wasted
  {
  }

  lemma NewSessionInv()
    ensures Inv(NEW_SESSION)
  {
  }

  // ---------------------------------------------------------------------------
  // What never changes
  // ---------------------------------------------------------------------------

  /** A checkpoint keeps its id and fingerprint, and a success keeps everything. */
  predicate Stands(c: Checkpoint, d: Checkpoint) {
    d.id == c.id && d.fingerprint == c.fingerprint && (c.state == Success ==> d == c)
  }

  predicate AllStand(before: map<nat, Checkpoint>, after: map<nat, Checkpoint>) {
    forall i :: i in before ==> i in after && Stands(before[i], after[i])
  }

  lemma ProcessStands(s: Store, item: Item, e: Event)
    ensures AllStand(s.checkpoints, Process(s, item, e).0.checkpoints)
  {
    hide Handled, CallAndWrite;
    var (r, c) := Fetched(s, item);
    HandledStands(s, e.marks);
    if Claimable(r.checkpoints[item.index], c) {
      CallStands(Start(r, item.index), item.index, e);
    }
  }

  lemma HandledStands(s: Store, marks: bool)
    ensures AllStand(s.checkpoints, Handled(s, marks).checkpoints)
  {
  }

  lemma CallStands(c: Store, i: nat, e: Event)
    requires i in c.checkpoints && c.checkpoints[i].state != Success
    ensures AllStand(c.checkpoints, CallAndWrite(c, i, e).0.checkpoints)
  {
  }

  lemma {:induction false} LoopStands(s: Store, plan: seq<Item>, events: seq<Event>, cancelAtEnd: bool, k: nat)
    requires |events| == |plan| && k <= |plan|
    ensures AllStand(s.checkpoints, RunFrom(s, plan, events, cancelAtEnd, k).0.checkpoints)
    decreases |plan| - k
  {
    hide Process;
    if k < |plan| {
      ProcessStands(s, plan[k], events[k]);
      LoopStands(Process(s, plan[k], events[k]).0, plan, events, cancelAtEnd, k + 1);
    }
  }

  /** Successes never revert, whatever the runs, their faults and their inputs; and no checkpoint
      ever takes on another fingerprint. */
  lemma {:induction false} SuccessesStand(s: Store, runs: seq<Run>)
    requires forall i :: 0 <= i < |runs| ==> IsRun(runs[i])
    ensures AllStand(s.checkpoints, AfterRuns(s, runs).checkpoints)
    decreases |runs|
  {
    hide RunFrom;
    if runs != [] {
      LoopStands(s, runs[0].plan, runs[0].events, runs[0].cancelAtEnd, 0);
      SuccessesStand(Rerun(s, runs[0]).0, runs[1..]);
    }
  }

  // ---------------------------------------------------------------------------
  // Normal exit
  // ---------------------------------------------------------------------------

  predicate Succeeded(s: Store, item: Item) {
    && item.index in s.checkpoints
    && s.checkpoints[item.index].state == Success && s.checkpoints[item.index].fingerprint == item.fingerprint
  }

  predicate DistinctItems(plan: seq<Item>) {
    forall j, k :: 0 <= j < k < |plan| ==> plan[j].index != plan[k].index
  }

  /** An item is left behind succeeded, and no other item's success is touched. */
  lemma ProcessSucceeds(s: Store, item: Item, e: Event)
    ensures var (s', outcome) := Process(s, item, e);
      && !outcome.Finished?
      && (outcome.Done? || outcome.Skipped? ==> Succeeded(s', item))
      && (forall other: Item :: other.index != item.index && Succeeded(s, other) ==> Succeeded(s', other))
  {
  }

  lemma {:induction false} FinishedRunSucceeded(
    s: Store, plan: seq<Item>, events: seq<Event>, cancelAtEnd: bool, k: nat)
    requires |events| == |plan| && k <= |plan| && DistinctItems(plan)
    requires forall j :: 0 <= j < k ==> Succeeded(s, plan[j])
    ensures var (s', outcome) := RunFrom(s, plan, events, cancelAtEnd, k);
      outcome.Finished? ==> forall j :: 0 <= j < |plan| ==> Succeeded(s', plan[j])
    decreases |plan| - k
  {
    hide Process, Succeeded;
    if k < |plan| {
      ProcessSucceeds(s, plan[k], events[k]);
      var (s', outcome) := Process(s, plan[k], events[k]);
      if outcome.Done? || outcome.Skipped? {
        FinishedRunSucceeded(s', plan, events, cancelAtEnd, k + 1);
      }
    }
  }

  // ---------------------------------------------------------------------------
  // Changed inputs
  // ---------------------------------------------------------------------------

  /** The item is new, or its checkpoint was made for the same input. */
  predicate Matches(s: Store, item: Item) {
    item.index in s.checkpoints ==> s.checkpoints[item.index].fingerprint == item.fingerprint
  }

  predicate SameRow(s: Store, s': Store, i: nat) {
    i in s.checkpoints && i in s'.checkpoints && s'.checkpoints[i] == s.checkpoints[i]
  }

  predicate AllFine(events: seq<Event>, k: nat) {
    forall j :: k <= j < |events| ==> events[j].fault.NoFault?
  }

  /** Without a fault an item with a changed input ends the run late and leaves no trace, an item
      that has succeeded is skipped, and any other is called once and succeeds. */
  lemma FineItem(s: Store, item: Item, e: Event)
    requires Inv(s) && e.fault.NoFault?
    ensures var (s', outcome) := Process(s, item, e);
      && (!Matches(s, item) ==> s' == s && outcome == Late)
      && (Matches(s, item) && Succeeded(s, item) ==> s' == s && outcome == Skipped)
      && (Matches(s, item) && !Succeeded(s, item) ==>
            && outcome == Done && Succeeded(s', item) && Inv(s')
            && s'.tally.calls == s.tally.calls + 1 && s'.tally.wasted == s.tally.wasted
            && s'.checkpoints.Keys == s.checkpoints.Keys + {item.index}
            && forall i :: i in s.checkpoints && i != item.index ==> s'.checkpoints[i] == s.checkpoints[i])
  {
    hide Consistent, CallAndWrite, Handled, Writable;
    ProcessKeepsInv(s, item, e);
    var (r, c) := Fetched(s, item);
    if Claimable(r.checkpoints[item.index], c) {
      FetchKeepsInv(s, item);
      StartKeeps(r, item.index);
      UsageNeverConflicts(Start(r, item.index), 1, item.index, e.tokens);
      FineCall(Start(r, item.index), item.index, e);
    }
  }

  lemma FineCall(c: Store, i: nat, e: Event)
    requires i in c.checkpoints && e.fault.NoFault? && Writable(c, i, e.tokens)
    ensures CallAndWrite(c, i, e) == (Written(c, i, e.payload, e.tokens), Done)
  {
  }

  /** How many of the items from `k` up to `m` have not succeeded yet. */
  function Missing(s: Store, plan: seq<Item>, k: nat, m: nat): nat
    requires k <= m <= |plan|
    decreases m - k
  {
    if k == m then 0 else (if Succeeded(s, plan[k]) then 0 else 1) + Missing(s, plan, k + 1, m)
  }

  lemma {:induction false} MissingUnchanged(s: Store, s': Store, plan: seq<Item>, k: nat, m: nat)
    requires k <= m <= |plan|
    requires forall j :: k <= j < m ==> (Succeeded(s, plan[j]) <==> Succeeded(s', plan[j]))
    ensures Missing(s, plan, k, m) == Missing(s', plan, k, m)
    decreases m - k
  {
    hide Succeeded;
    if k < m {
      MissingUnchanged(s, s', plan, k + 1, m);
    }
  }

  /** Other items look the same before and after. */
  lemma OthersUnchanged(s: Store, s': Store, item: Item, other: Item)
    requires other.index != item.index
    requires s'.checkpoints.Keys <= s.checkpoints.Keys + {item.index} && s.checkpoints.Keys <= s'.checkpoints.Keys
    requires forall i :: i in s.checkpoints && i != item.index ==> s'.checkpoints[i] == s.checkpoints[i]
    ensures Matches(s', other) <==> Matches(s, other)
    ensures Succeeded(s', other) <==> Succeeded(s, other)
    ensures other.index in s.checkpoints ==> s'.checkpoints[other.index] == s.checkpoints[other.index]
  {
  }

  /** A fault-free loop goes exactly as far as the first item with a changed input. */
  lemma {:induction false} FineLoop(s: Store, plan: seq<Item>, events: seq<Event>, k: nat) returns (m: nat)
    requires Inv(s) && |events| == |plan| && k <= |plan| && DistinctItems(plan) && AllFine(events, k)
    ensures k <= m <= |plan|
    ensures var (s', outcome) := RunFrom(s, plan, events, false, k);
      && outcome == (if m == |plan| then Finished else Late)
      && (forall j :: k <= j < m ==> Matches(s, plan[j]) && Succeeded(s', plan[j]))
      && (m < |plan| ==> !Matches(s, plan[m]) && SameRow(s, s', plan[m].index))
      && s'.tally.calls == s.tally.calls + Missing(s, plan, k, m) && s'.tally.wasted == s.tally.wasted
    decreases |plan| - k
  {
    hide Process, Inv, Stands;
    m := k;
    if k < |plan| {
      FineItem(s, plan[k], events[k]);
      var s1 := Process(s, plan[k], events[k]).0;
      if Matches(s, plan[k]) {
        forall j | k < j < |plan|
          ensures Matches(s1, plan[j]) <==> Matches(s, plan[j])
          ensures Succeeded(s1, plan[j]) <==> Succeeded(s, plan[j])
          ensures plan[j].index in s.checkpoints ==>
            plan[j].index in s1.checkpoints && s1.checkpoints[plan[j].index] == s.checkpoints[plan[j].index]
        {
          OthersUnchanged(s, s1, plan[k], plan[j]);
        }
        m := FineLoop(s1, plan, events, k + 1);
        MissingUnchanged(s, s1, plan, k + 1, m);
        LoopKeepsSuccess(s1, plan, events, false, k + 1, plan[k]);
      }
    }
  }

  lemma LoopKeepsSuccess(
    s: Store, plan: seq<Item>, events: seq<Event>, cancelAtEnd: bool, k: nat, item: Item)
    requires |events| == |plan| && k <= |plan| && Succeeded(s, item)
    ensures Succeeded(RunFrom(s, plan, events, cancelAtEnd, k).0, item)
  {
    LoopStands(s, plan, events, cancelAtEnd, k);
    hide RunFrom;
  }

  /** A fault-free, uncancelled run finishes exactly when every item that already has a checkpoint
      has it for the same input. Otherwise it ends late at the first item that has not, having
      called the LLM for the missing items before it and not for that one. */
  lemma RunFinishesIffInputsMatch(s: Store, run: Run) returns (m: nat)
    requires Inv(s) && IsRun(run) && DistinctItems(run.plan) && AllFine(run.events, 0) && !run.cancelAtEnd
    ensures m <= |run.plan|
    ensures var (s', outcome) := Rerun(s, run);
      && (outcome == Finished <==> forall k :: 0 <= k < |run.plan| ==> Matches(s, run.plan[k]))
      && (outcome == Finished <==> m == |run.plan|)
      && (outcome != Finished ==>
            && outcome == Late && !Matches(s, run.plan[m])
            && SameRow(s, s', run.plan[m].index))
      && (forall k :: 0 <= k < m ==> Matches(s, run.plan[k]) && Succeeded(s', run.plan[k]))
      && s'.tally.calls == s.tally.calls + Missing(s, run.plan, 0, m) && s'.tally.wasted == s.tally.wasted
  {
    m := FineLoop(s, run.plan, run.events, 0);
  }

  /** A changed input stays changed: after any further runs no run over a plan with that item
      finishes, whatever its faults, and a fault-free one ends late. */
  lemma ChangedInputStallsForever(s: Store, runs: seq<Run>, last: Run, k: nat)
    requires Inv(s) && (forall i :: 0 <= i < |runs| ==> IsRun(runs[i]))
    requires IsRun(last) && DistinctItems(last.plan) && k < |last.plan| && !Matches(s, last.plan[k])
    ensures var outcome := Rerun(AfterRuns(s, runs), last).1;
      outcome != Finished && (AllFine(last.events, 0) && !last.cancelAtEnd ==> outcome == Late)
  {
    hide RunFrom;
    SuccessesStand(s, runs);
    RunsKeepInv(s, runs);
    var s' := AfterRuns(s, runs);
    assert !Matches(s', last.plan[k]);
    FinishedRunSucceeded(s', last.plan, last.events, last.cancelAtEnd, 0);
    LoopStands(s', last.plan, last.events, last.cancelAtEnd, 0);
    if AllFine(last.events, 0) && !last.cancelAtEnd {
      var m := RunFinishesIffInputsMatch(s', last);
    }
  }

  /** Concretely: the first run analyses the only file, or fails in its call; then its prompt
      changes, and the second run ends late without a call and without a trace. */
  lemma ChangedInputStalls(first: Event, second: Event)
    requires first.fault in {NoFault, CallFails} && second.fault == NoFault
    ensures var s := Rerun(NEW_SESSION, Run([Item(1, 100)], [first], false)).0;
      && s.tally.calls == 1 && (first.fault == NoFault <==> Succeeded(s, Item(1, 100)))
      && Rerun(s, Run([Item(1, 200)], [second], false)) == (s, Late)
  {
  }

  // ---------------------------------------------------------------------------
  // Runs over one unchanging plan
  // ---------------------------------------------------------------------------

  function Indices(plan: seq<Item>): set<nat> {
    set k | 0 <= k < |plan| :: plan[k].index
  }

  /** The successes are the first `n` items of the plan. */
  predicate PrefixDone(s: Store, plan: seq<Item>, n: nat)
    requires n <= |plan|
  {
    && (forall k :: 0 <= k < n ==> Succeeded(s, plan[k]))
    && (forall k :: n <= k < |plan| && plan[k].index in s.checkpoints ==>
          s.checkpoints[plan[k].index].state != Success && s.checkpoints[plan[k].index].fingerprint == plan[k].fingerprint)
  }

  /** All that a store can be after runs over `plan` alone. */
  ghost predicate Settled(s: Store, plan: seq<Item>, n: nat)
    requires n <= |plan|
  {
    && Inv(s)
    && s.checkpoints.Keys <= Indices(plan)
    && PrefixDone(s, plan, n)
  }

  /** Processing an item that has already succeeded leaves everything as it is. */
  lemma ProcessOldItem(s: Store, plan: seq<Item>, n: nat, k: nat, e: Event)
    requires n <= |plan| && k < n && DistinctItems(plan) && Settled(s, plan, n)
    ensures var (s', outcome) := Process(s, plan[k], e);
      Settled(s', plan, n) && s'.tally == s.tally && !outcome.Done?
      && (e.fault.NoFault? ==> outcome.Skipped?)
  {
    HandledKeepsSettled(s, plan, n, e.marks);
    ProcessDoneItem(s, plan[k], e);
    hide Settled, Process;
  }

  lemma ProcessDoneItem(s: Store, item: Item, e: Event)
    requires Succeeded(s, item)
    ensures var (s', outcome) := Process(s, item, e);
      && (s' == s || s' == Handled(s, e.marks)) && !outcome.Done?
      && (e.fault.NoFault? ==> outcome.Skipped?)
  {
  }

  lemma HandledKeepsSettled(s: Store, plan: seq<Item>, n: nat, marks: bool)
    requires n <= |plan| && DistinctItems(plan) && Settled(s, plan, n)
    ensures Settled(Handled(s, marks), plan, n) && Handled(s, marks).tally == s.tally
  {
    hide Consistent, Handled, DistinctItems;
    HandledKeeps(s, marks, 0);
    HandledShape(s, marks);
  }

  /** The first item that has not succeeded yet either succeeds or ends the run. */
  lemma ProcessNextItem(s: Store, plan: seq<Item>, n: nat, e: Event)
    requires n < |plan| && DistinctItems(plan) && Settled(s, plan, n)
    ensures var (s', outcome) := Process(s, plan[n], e); var n' := if s'.tally.commits > s.tally.commits then n + 1 else n;
      && Settled(s', plan, n')
      && (outcome.Done? ==> n' == n + 1) && !outcome.Skipped?
      && (e.fault.NoFault? ==> outcome.Done? && s'.tally.wasted == s.tally.wasted)
  {
    var item := plan[n];
    var (s', outcome) := Process(s, item, e);
    ProcessKeepsInv(s, item, e);
    NextItemShape(s, item, e);
    hide Inv, Process;
    NextItemPrefix(s, s', plan, n);
    assert item.index in Indices(plan);
  }

  /** The fault leaves the first transaction of the item committed. */
  predicate CommitsPre(fault: Fault) {
    fault !in {CancelRequested, BuildFails, PreLate, PreFails, PreCrash}
  }

  predicate CommitsPost(fault: Fault) {
    fault in {NoFault, CrashAfterCommit}
  }

  /** What processing an item that has not succeeded does, without its transactions. */
  lemma NextItemShape(s: Store, item: Item, e: Event)
    requires Inv(s)
    requires item.index in s.checkpoints ==>
      s.checkpoints[item.index].state != Success && s.checkpoints[item.index].fingerprint == item.fingerprint
    ensures var (s', outcome) := Process(s, item, e); var committed := s'.tally.commits > s.tally.commits;
      && s'.checkpoints.Keys <= s.checkpoints.Keys + {item.index}
      && s.checkpoints.Keys <= s'.checkpoints.Keys
      && (forall i :: i in s.checkpoints && i != item.index ==> SameUpToError(s.checkpoints[i], s'.checkpoints[i]))
      && (committed ==> Succeeded(s', item))
      && (!committed && item.index in s'.checkpoints ==>
            s'.checkpoints[item.index].state != Success && s'.checkpoints[item.index].fingerprint == item.fingerprint)
      && (outcome.Done? ==> committed) && !outcome.Skipped?
      && (e.fault.NoFault? ==> outcome.Done? && s'.tally.wasted == s.tally.wasted)
  {
    hide Handled, CallAndWrite, Consistent;
    HandledShape(s, e.marks);
    var (r, c) := Fetched(s, item);
    assert Claimable(r.checkpoints[item.index], c);
    if CommitsPre(e.fault) {
      NextIsWritable(s, item, e.tokens);
      CallShape(Start(r, item.index), item.index, e);
    }
  }

  lemma NextIsWritable(s: Store, item: Item, tokens: int)
    requires Inv(s)
    requires item.index in s.checkpoints ==>
      s.checkpoints[item.index].state != Success && s.checkpoints[item.index].fingerprint == item.fingerprint
    ensures Writable(Start(Fetched(s, item).0, item.index), item.index, tokens)
  {
  }

  lemma HandledShape(s: Store, marks: bool)
    ensures var h := Handled(s, marks);
      && h.tally == s.tally && h.checkpoints.Keys == s.checkpoints.Keys
      && forall i :: i in s.checkpoints ==> SameUpToError(s.checkpoints[i], h.checkpoints[i])
  {
  }

  lemma CallShape(c: Store, i: nat, e: Event)
    requires i in c.checkpoints && c.checkpoints[i].state == Processing
    requires CommitsPre(e.fault) && Writable(c, i, e.tokens)
    ensures var (s', outcome) := CallAndWrite(c, i, e);
      && s'.checkpoints.Keys == c.checkpoints.Keys
      && (forall j :: j in c.checkpoints && j != i ==> SameUpToError(c.checkpoints[j], s'.checkpoints[j]))
      && s'.checkpoints[i].fingerprint == c.checkpoints[i].fingerprint
      && (s'.checkpoints[i].state == Success <==> CommitsPost(e.fault))
      && s'.tally.commits == c.tally.commits + (if CommitsPost(e.fault) then 1 else 0)
      && (outcome.Done? ==> CommitsPost(e.fault)) && !outcome.Skipped?
      && (e.fault.NoFault? ==> outcome.Done? && s'.tally.wasted == c.tally.wasted)
  {
  }

  predicate SameUpToError(c: Checkpoint, d: Checkpoint) {
    d == c || (c.state == Processing && d == c.(state := Error))
  }

  lemma NextItemPrefix(s: Store, s': Store, plan: seq<Item>, n: nat)
    requires n < |plan| && DistinctItems(plan) && PrefixDone(s, plan, n)
    requires s'.checkpoints.Keys <= s.checkpoints.Keys + {plan[n].index} && s.checkpoints.Keys <= s'.checkpoints.Keys
    requires forall i :: i in s.checkpoints && i != plan[n].index ==> SameUpToError(s.checkpoints[i], s'.checkpoints[i])
    ensures Succeeded(s', plan[n]) ==> PrefixDone(s', plan, n + 1)
    ensures (plan[n].index in s'.checkpoints ==>
              s'.checkpoints[plan[n].index].state != Success
              && s'.checkpoints[plan[n].index].fingerprint == plan[n].fingerprint) ==>
      PrefixDone(s', plan, n)
  {
  }

  /** A run goes through the old successes and then extends them in plan order. */
  lemma {:induction false} LoopKeepsSettled(
    s: Store, plan: seq<Item>, events: seq<Event>, cancelAtEnd: bool, k: nat, n: nat) returns (n': nat)
    requires |events| == |plan| && k <= n <= |plan| && DistinctItems(plan) && Settled(s, plan, n)
    ensures var (s', outcome) := RunFrom(s, plan, events, cancelAtEnd, k);
      && n <= n' <= |plan| && Settled(s', plan, n')
      && (outcome.Finished? ==> n' == |plan|)
      && (AllFine(events, k) ==> n' == |plan| && s'.tally.wasted == s.tally.wasted && (!cancelAtEnd ==> outcome.Finished?))
    decreases |plan| - k
  {
    hide Process, Settled;
    n' := n;
    if k < |plan| {
      var (s', outcome) := Process(s, plan[k], events[k]);
      ProcessSucceeds(s, plan[k], events[k]);
      if k < n {
        ProcessOldItem(s, plan, n, k, events[k]);
      } else {
        ProcessNextItem(s, plan, n, events[k]);
        n' := if s'.tally.commits > s.tally.commits then n + 1 else n;
      }
      if outcome.Done? || outcome.Skipped? {
        n' := LoopKeepsSettled(s', plan, events, cancelAtEnd, k + 1, n');
      }
    }
  }

  lemma {:induction false} IndicesSize(plan: seq<Item>, n: nat)
    requires n <= |plan| && DistinctItems(plan)
    ensures |set k | 0 <= k < n :: plan[k].index| == n
  {
    if n > 0 {
      IndicesSize(plan, n - 1);
      var before, after := set k | 0 <= k < n - 1 :: plan[k].index, set k | 0 <= k < n :: plan[k].index;
      assert after == before + {plan[n - 1].index};
    }
  }

  lemma SettledCount(s: Store, plan: seq<Item>, n: nat)
    requires n <= |plan| && DistinctItems(plan) && Settled(s, plan, n)
    ensures |SuccessIds(s.checkpoints)| == n && s.tally.calls == n + s.tally.wasted
  {
    IndicesSize(plan, n);
    var done := set k | 0 <= k < n :: plan[k].index;
    forall i | i in SuccessIds(s.checkpoints)
      ensures i in done
    {
      assert i in Indices(plan);
      var k :| 0 <= k < |plan| && plan[k].index == i;
    }
    forall i | i in done
      ensures i in SuccessIds(s.checkpoints)
    {
      var k :| 0 <= k < n && plan[k].index == i;
      assert Succeeded(s, plan[k]);
    }
    assert SuccessIds(s.checkpoints) == done;
  }

  predicate RunsOver(runs: seq<Run>, plan: seq<Item>) {
    forall i :: 0 <= i < |runs| ==> runs[i].plan == plan && IsRun(runs[i])
  }

  lemma RunsOverAreRuns(plan: seq<Item>, runs: seq<Run>)
    requires RunsOver(runs, plan)
    ensures forall i :: 0 <= i < |runs| ==> IsRun(runs[i])
  {
  }

  lemma {:induction false} RunsKeepSettled(s: Store, plan: seq<Item>, runs: seq<Run>, n: nat) returns (n': nat)
    requires n <= |plan| && DistinctItems(plan) && Settled(s, plan, n) && RunsOver(runs, plan)
    ensures n <= n' <= |plan| && Settled(AfterRuns(s, runs), plan, n')
    decreases |runs|
  {
    hide Settled, RunFrom;
    n' := n;
    if runs != [] {
      n' := LoopKeepsSettled(s, plan, runs[0].events, runs[0].cancelAtEnd, 0, n);
      n' := RunsKeepSettled(Rerun(s, runs[0]).0, plan, runs[1..], n');
    }
  }

  /** Over any number of interrupted runs of one plan: the successes are always a prefix of the
      plan, the LLM was called once per success plus once per call whose success was not
      committed, a run that ends normally leaves the whole plan done, and one more run without
      faults ends normally and calls the LLM exactly for the items that were left. */
  lemma ResumeNeverRepaysSuccess(plan: seq<Item>, runs: seq<Run>, last: Run) returns (n: nat, m: nat)
    requires DistinctItems(plan) && RunsOver(runs, plan) && last.plan == plan && IsRun(last)
    ensures n <= m <= |plan|
    ensures var s := AfterRuns(NEW_SESSION, runs); var (s', outcome) := Rerun(s, last);
      && PrefixDone(s, plan, n) && s.tally.calls == n + s.tally.wasted
      && PrefixDone(s', plan, m) && s'.tally.calls == m + s'.tally.wasted
      && (outcome.Finished? ==> m == |plan|)
      && (AllFine(last.events, 0) && !last.cancelAtEnd ==>
            outcome.Finished? && s'.tally.calls == s.tally.calls + (|plan| - n))
  {
    hide *;
    RunsOverAreRuns(plan, runs);
    NewSessionSettled(plan);
    n := RunsKeepSettled(NEW_SESSION, plan, runs, 0);
    m := ResumeOnce(AfterRuns(NEW_SESSION, runs), plan, last, n);
  }

  lemma NewSessionSettled(plan: seq<Item>)
    ensures Settled(NEW_SESSION, plan, 0)
  {
    hide Inv;
    NewSessionInv();
  }

  lemma ResumeOnce(s: Store, plan: seq<Item>, last: Run, n: nat) returns (m: nat)
    requires DistinctItems(plan) && last.plan == plan && IsRun(last) && n <= |plan| && Settled(s, plan, n)
    ensures n <= m <= |plan|
    ensures var (s', outcome) := Rerun(s, last);
      && PrefixDone(s, plan, n) && s.tally.calls == n + s.tally.wasted
      && PrefixDone(s', plan, m) && s'.tally.calls == m + s'.tally.wasted
      && (outcome.Finished? ==> m == |plan|)
      && (AllFine(last.events, 0) && !last.cancelAtEnd ==>
            outcome.Finished? && s'.tally.calls == s.tally.calls + (|plan| - n))
  {
    SettledCount(s, plan, n);
    m := LoopKeepsSettled(s, plan, last.events, last.cancelAtEnd, 0, n);
    SettledCount(Rerun(s, last).0, plan, m);
  }
}
