/** The outbox lifecycle: the four states and the frozen transition table. */
module OutboxStates {
  import opened Outcomes

  datatype Status = Pending | Publishing | Published | Failed

  const ALLOWED_TRANSITIONS: map<Status, set<Status>> := map[
    Pending := {Publishing, Failed},
    Publishing := {Pending, Published, Failed},
    Published := {},
    Failed := {Pending}
  ]

  predicate CanTransition(current: Status, target: Status) {
    current in ALLOWED_TRANSITIONS && target in ALLOWED_TRANSITIONS[current]
  }

  /** `ALLOWED_TRANSITIONS` plus the caller's own assertion about the current state. */
  function Transition(current: Status, target: Status, expectedFrom: Option<set<Status>>): (r: Result<Status, ()>)
    ensures r.Ok? <==> CanTransition(current, target) && (expectedFrom.None? || current in expectedFrom.value)
    ensures r.Ok? ==> r.value == target
  {
    if expectedFrom.Some? && current !in expectedFrom.value then Err(())
    else if !CanTransition(current, target) then Err(())
    else Ok(target)
  }

  /** The table by targets: what can become each status. */
  lemma SourcesOf(current: Status, target: Status)
    ensures CanTransition(current, target) <==>
      match target
      case Pending => current == Publishing || current == Failed
      case Publishing => current == Pending
      case Published => current == Publishing
      case Failed => current == Pending || current == Publishing
  {
  }

  /** What one committed publisher transaction may do to a row: nothing, or a claim
      (`Pending` to `Publishing`) followed by one mark. Both hops are table edges. */
  predicate CommittedHop(before: Status, after: Status) {
    before == after
    || (CanTransition(before, Publishing) && CanTransition(Publishing, after))
  }

  /** Nothing ever leaves `Published`, and the only way out of `Failed` is not one a
      publisher transaction takes. */
  lemma TerminalStatesAbsorb(before: Status, after: Status)
    requires before == Published || before == Failed
    requires CommittedHop(before, after)
    ensures after == before
  {
  }

  /** Every status but the first was accepted by `Transition` from the one before it. */
  predicate IsPath(path: seq<Status>) {
    forall i :: 0 < i < |path| ==> Transition(path[i - 1], path[i], None).Ok?
  }

  /** Whatever the callers do to a row that starts out pending: it is published only straight
      after a claim, nothing follows its publication, and a failure is only ever followed by
      going back to pending. */
  lemma PublishedIsLast(path: seq<Status>, i: nat)
    requires IsPath(path) && i < |path| && path[0] == Pending
    ensures path[i] == Published ==> i == |path| - 1 && i > 0 && path[i - 1] == Publishing
    ensures path[i] == Failed && i < |path| - 1 ==> path[i + 1] == Pending
  {
  }
}
