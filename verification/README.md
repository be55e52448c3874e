# Home monitor backend: verified models

This project models the parts of the home-monitor backend whose correctness depends on many steps
acting together, and proves what they promise.

* **Transactional outbox.** Business transactions enrol rows; any number of publishers claim a locked
  batch, call the broker, mark the head of the batch and commit. `OutboxRepository` and
  `OutboxPublisher` are the two classes, statement by statement; `OutboxProtocol` is the step system of
  all publishers and business transactions together, with broker, crashes, cleanup and a monotone
  clock. `OutboxSafety` proves one invariant for every step, `OutboxGuarantees` reads the promises off
  it, `OutboxOutcomes` says how each row begins and why it ends, `OutboxProgress` proves termination
  and that the protocol's polls are the publisher's polls, and `OutboxOvertaking` bounds how long a due
  row can be passed over. `PayloadValidator`, `PayloadMeaning`, `OutboxRows`, `OutboxStates` and
  `RetryPolicy` are their parts.
* **Pipeline state.** `PipelineState` is the compare-and-set with its append-only audit,
  `PipelineHistory` any number of concurrent transactions over it. `SummaryAttempts` and
  `SummaryHistory` do the same for daily-summary attempts.
* **Media capabilities.** `TextCodec`, `Base64` and `MediaSigning`: printer, parser, token, acceptance.
* **Resumable analysis.** `AnalysisResume` is the sub-chunk loop with its two transactions per item,
  `AnalysisRuns` any number of interrupted runs of it, and `AnalysisResults` what they leave in the
  checkpoints; `SessionTimeline` builds the plan, `TokenUsage` accounts for the tokens, and `TokenQuota`
  bounds what the daily quotas let through.
* **Fast form against simple form.** `DirectoryScan` (folder-pruned scan, with `DirectoryClips` for what
  it finds), `AttentionQuery` (SQL
  condition against Python predicate), `ProviderDefaults` (default flags over all use cases).

Conventions: an UPDATE, INSERT or SELECT is one atomic statement; a crash is a rollback; values that
come from outside (clock readings, broker answers, faults, what other transactions hold) are
parameters, so every theorem holds for all of them.

## Results worth knowing

* The publisher's docstring promises that a worker reclaims rows whose lease has expired. The claim
  query selects `pending` rows only, so nothing is ever reclaimed; recovery is the rollback, and no
  committed row ever carries a claim or a lease (`NothingStuck` in `OutboxGuarantees.Safe`).
* A business insert for a task log whose row is already settled is a UNIQUE violation, not a hit on
  the existing row (`OutboxRepository.EnrollWithTaskLog`).
* Counters of a refused message are merged before the commit, those of an accepted one after it, so a
  crash can leave a counted failure that never happened; `CountersAlwaysTally` says by exactly how much.
* `is_json_safe` starts at depth 0, the real validation at depth 1: the probe is one level wider.
  The docstring of `ensure_json_safe` says that dates and UUIDs become strings; they are passed through.
* A capability survives the trip through a token exactly when its version is not empty and has neither
  dot nor colon and its method has no colon. A signature outside ASCII ends in a `TypeError`.
* An empty `source` makes a transition raise after its UPDATE has been issued. The documented "audit
  replays to the live state" then depends on the caller's rollback: `CallStaysExplained`,
  `TornCommitBreaksReplay`. Over whole runs it holds for an aggregate exactly when its committed but
  unrecorded moves lead back, between any two recorded rows, to where they began: `AuditReplaysIff`.
* Attempt numbers per date never have a gap, but two workers can use one twice, because the number is
  read before the insert. They stay distinct exactly when no other attempt of the date is inserted in
  between; a lock per date is enough: `DistinctIffUndisturbed`, `LockPerDateKeepsNumbersDistinct`.
* The docstring of `get_or_create_checkpoint` says that a changed fingerprint resets the checkpoint
  and is persisted by the next success. The reset stays on the object in memory, since sessions do not
  flush on their own, and the next UPDATE looks for the new fingerprint in a row that has the old one.
  So nothing is reset and no success is ever undone, but an item whose prompts have changed since its
  checkpoint was made ends every later run as a "late worker", without a call, even if it never
  succeeded: `RunFinishesIffInputsMatch`, `ChangedInputStallsForever`, `ChangedInputStalls`.
* The payload validator accepts UUIDs, dates and date-times, which the JSON column then refuses, so
  enrolment fails on them although validation has passed: `AcceptedButNotStorable`,
  `OutboxRepository.EnrollWithTaskLog`.
* A search raises exactly when a row that it would return holds an entity that is no object.
* In a provider update the check "cannot disable the default" never fires, since the request has been
  overridden by then. Dropping the capability of a default keeps the capability and clears the flag.
* A quota check is not made before every call with everything in view. A summary checks once for all
  its calls; an answer checks before each, but its own rows stay in its session until the commit. A day
  can therefore overshoot its quota by the rows of a whole job per worker, and does in the worst case:
  `OvershootIsBounded`, `OvershootIsAttained`. One largest call per worker is the bound exactly when
  only sub-chunk analyses run: `OneCallIffOnlyAnalysis`, `OneWorkerOvershoots`. A summary that fails
  records the usage of its last reply again.
* The pruned directory scan and the plain one differ by who raises: the pruned one on a folder whose
  hour, or the hour after it, leaves the calendar; the plain one also on files of folders that the
  pruned one skips, if a clip leaves the calendar or a minute or second in its name does not fit a C
  integer, which is an uncaught `OverflowError`: `PrunedRefinesPlain`, `OrdinaryYearsAgree`,
  `LastHourRaisesOnlyPruned`, `HugeStampRaisesOnlyPlain`.
* The attention condition and the label of the results agree on all events exactly when `inf` is not a
  focus key, because a JSON number beyond the floats prints as `inf`: `AgreeUnlessInfinityIsKey`.
* A search with `attention=false` also loses rows that are no attention events but have a NULL that
  the SQL condition looks at.

## Model

| member | source | states |
|---|---|---|
| OutboxStates.PublishedIsLast | src/application/outbox/state_machine.py:50-123 | along any sequence of accepted transitions from pending, publication comes straight after a claim and is the end, and a failure only leads back to pending |
| OutboxStates.TerminalStatesAbsorb | src/application/outbox/state_machine.py:50-65 | no publisher transaction leads out of published or failed |
| OutboxStates.SourcesOf | src/application/outbox/state_machine.py:50-65 | the table by targets: what can become each status |
| PayloadValidator.EnsureJsonSafe | src/application/outbox/payload_validator.py:139-193 | accepts exactly clean values of fitting depth, returns their tuple-free copy, and otherwise names the first offending value by its path and rule |
| PayloadValidator.EnsureItems | src/application/outbox/payload_validator.py:152-168 | the same for the list and tuple branch |
| PayloadValidator.ValidateCommandPayload | src/application/outbox/payload_validator.py:217-257 | accepts exactly when both halves are acceptable at depth 1 and their summed size fits |
| PayloadValidator.IsJsonSafe | src/application/outbox/payload_validator.py:110-136 | true exactly when the value is acceptable from depth 0 and small enough |
| PayloadValidator.CollapseIsStable | src/application/outbox/payload_validator.py:139-193 | the stored copy is tuple-free, equally deep, equally clean, and unchanged exactly when there was no tuple |
| PayloadValidator.RevalidationIsIdentity | src/application/outbox/payload_validator.py:139-193 | a stored payload is accepted again at the same depth and is a fixed point |
| PayloadValidator.ProbeIsOneLevelWider | src/application/outbox/payload_validator.py:110-136 | the probe accepts payloads one level deeper than the validator does |
| PayloadValidator.CollapseKeepsStorable | src/application/outbox/payload_validator.py:185-186 | the stored copy is refused by the JSON column exactly when the original holds a leaf or a NUL that the column refuses |
| PayloadValidator.AcceptedButNotStorable | src/application/outbox/payload_validator.py:185-186 | a payload that validation accepts and the column refuses |
| PayloadValidator.ItemsFit | src/application/outbox/payload_validator.py:152-168 | a container fits exactly when it and each element one level down fit |
| PayloadMeaning.AcceptableMeans | src/application/outbox/payload_validator.py:139-193 | a value is accepted exactly if nothing that occurs anywhere in it is a container too deep, a dictionary with a key that is no string, or an object of an unknown type |
| PayloadMeaning.OffenceIsThere | src/application/outbox/payload_validator.py:152-193 | the path in an error leads to a value that breaks the very rule that the error names |
| PayloadMeaning.OffenceIsFirst | src/application/outbox/payload_validator.py:152-180 | it is the first one: every container on the path is well-keyed and not too deep, and all before the step taken is flawless |
| PayloadMeaning.StorableMeans | src/application/outbox/payload_validator.py:185-186 | the JSON column takes a value exactly if no UUID, date, time, unknown object or NUL character occurs in it |
| OutboxRows.BatchIsUnique | src/application/outbox/repository.py:223-236 | table, locks, time and limit determine the claimed batch |
| OutboxRows.BatchHeadIsLeast | src/application/outbox/repository.py:223-236 | the head is the least due unlocked row in (next_attempt_at, id) order |
| OutboxRows.BatchEmptyIffNothingEligible | src/application/outbox/repository.py:223-241 | a poll is empty exactly when every due row is locked by others |
| OutboxRows.SelectBatch | src/application/outbox/repository.py:223-236 | computes the ordered, limited, lock-skipping batch |
| RetryPolicy.BackoffShape | src/application/outbox/publisher.py:153-179 | every delay is within 5 and 300 seconds and delays never shrink |
| RetryPolicy.TotalBackoffClosedForm | src/application/outbox/publisher.py:130-179 | delays 1..n sum to 315 + 300(n - 6) for all n from 6 on |
| RetryPolicy.ExhaustionTakes1815Seconds | src/application/outbox/publisher.py:130-135 | a row that uses up the default budget was delayed 1815 seconds in all |
| RetryPolicy.MarkRowShape | src/application/outbox/publisher.py:699-744 | a mark keeps identity, follows a table edge, releases the claim, stays within the budget and sends a retry at least five seconds behind its mark |
| RetryPolicy.MarkDecides | src/application/outbox/publisher.py:262-312 | a raised call fails the row exactly for an unregistered task or the last attempt; any other error leaves it pending, one attempt on, due after its exact delay |
| RetryPolicy.DeltaCounts | src/application/outbox/publisher.py:707-744 | the counters of a processed row say which of published, pending and failed it has become |
| RetryPolicy.MergeAssociates | src/application/outbox/publisher.py:422-440 | merging is associative with the empty counters as unit |
| RetryPolicy.MergeAllSplits | src/application/outbox/publisher.py:422-440 | any grouping of the same iterations merges to the same counters |
| RetryPolicy.MergeAllBalanced | src/application/outbox/publisher.py:387-440 | claimed = published + retryable + terminal survives merging |
| OutboxRepository.EventEmitter.EmitEvent | src/application/outbox/contracts.py:226-293 | emits exactly for registered tasks with acceptable payloads and unused ids, with the validated payload, and remembers the id exactly then |
| OutboxRepository.OutboxRepository.ProbeSlot | src/models/outbox.py:139-198 | tells which of free, pending or settled an insert for a task log meets |
| OutboxRepository.OutboxRepository.EnrollWithTaskLog | src/application/outbox/repository.py:109-185 | every outcome: fails on an unflushed task log, a refused event, a payload that the JSON column refuses, a settled row or a used event id, hands back the pending row of the task log, and otherwise adds exactly one row carrying the event |
| OutboxRepository.OutboxRepository.TryClaimOne | src/application/outbox/repository.py:191-261 | locks the batch, moves only its head to publishing with claim and lease, and changes nothing on an empty poll or a bad setting |
| OutboxRepository.OutboxRepository.MarkPublished | src/application/outbox/repository.py:263-300 | rewrites exactly the publishing row with this event id and tells whether there was one |
| OutboxRepository.OutboxRepository.MarkFailedToRetry | src/application/outbox/repository.py:302-340 | the same for a retry: pending again, one attempt more, claim released |
| OutboxRepository.OutboxRepository.MarkFailedTerminal | src/application/outbox/repository.py:342-378 | the same for a terminal failure, attempt count unchanged |
| OutboxRepository.OutboxRepository.CleanupPublishedOlderThan | src/application/outbox/repository.py:384-403 | deletes exactly the published rows older than the cutoff and counts them |
| OutboxRepository.Session.Commit | src/db/session.py:26-40 | commits the whole view |
| OutboxRepository.Session.Rollback | src/db/session.py:26-40 | drops every uncommitted write |
| OutboxPublisher.OutboxPublisher.RunOnce | src/application/outbox/publisher.py:530-594 | one poll replaces the committed head of the batch by its marked version, published, failed or pending as the broker's answer, the error and the attempts call for, or changes nothing committed; it sends its own message and merges counters as the outcome and the commit allow, with separate clock readings for the own and the returned counters |
| OutboxPublisher.OutboxPublisher.HandlePublishError | src/application/outbox/publisher.py:673-744 | fails the row for an unregistered task or a used-up budget, else sends it back to pending, and counts what it did |
| OutboxPublisher.OutboxPublisher.RunIteration | src/application/outbox/cli.py:215-271 | no uncommitted write outlives an iteration, a failed one commits nothing, the cumulative counters gain exactly what a finished one reports, and the publisher's own agree with them up to an older time of the last row |
| OutboxSafety.StepKeepsInv | src/application/outbox/publisher.py:556-594 | every step of every publisher, business transaction, crash and cleanup keeps the protocol invariant |
| OutboxSafety.ClaimKeepsLocks | src/application/outbox/repository.py:223-236 | skipping locked rows keeps the lock sets of all transactions disjoint |
| OutboxSafety.CommittedMark | src/application/outbox/publisher.py:571-594 | what a commit writes over the head: two table edges, same identity, claim released, one attempt more exactly for a retry |
| OutboxSafety.SendAccountsForHead | src/application/outbox/publisher.py:571-590 | a broker call, answered or raised, keeps the arrivals of its row exactly accounted for |
| OutboxSafety.CommitAccounts | src/application/outbox/publisher.py:590-594 | a commit turns the send in flight into a publication and disturbs no other row's account |
| OutboxSafety.CrashKeepsTraffic | src/application/outbox/publisher.py:556-594 | a crash turns the send in flight into a crash after a send |
| OutboxGuarantees.EveryRunIsSafe | src/application/outbox/publisher.py:556-594 | in every interleaving: no row locked by two publishers, deliveries at most 1 + crashes after a send + raised sends and at least one per published row, messages are the committed ones, nothing is stuck in publishing, attempts within budget, enrolled = pending + published + failed + cleaned, one row per task log |
| OutboxGuarantees.StepFollowsTable | src/application/outbox/state_machine.py:50-65 | every change of a committed row follows table edges, never its message or task log, and never leaves published or failed |
| OutboxGuarantees.OnlyCommitRewrites | src/application/outbox/publisher.py:530-594 | nothing but a publisher's commit changes a committed row |
| OutboxGuarantees.OnlyCleanupRemoves | src/application/outbox/repository.py:384-403 | rows leave only by cleanup, and then exactly those published before its cutoff |
| OutboxGuarantees.CrashIsRollback | src/application/outbox/publisher.py:556-594 | a crash at any point changes no committed row and frees every lock, the head still pending and due |
| OutboxGuarantees.CountersAlwaysTally | src/application/outbox/publisher.py:586-594 | merged counters balance in every run and are off only by open marks and marks lost in crashes |
| OutboxGuarantees.CrashFreeCountersAreExact | src/application/outbox/publisher.py:387-440 | crash-free runs at rest have counted exactly what was committed |
| OutboxOutcomes.EmittableMeans | src/application/outbox/contracts.py:226-293 | an event is emitted exactly for a registered task and an unused id with a payload in which nothing breaks a rule at depth 8 and of at most 32768 bytes |
| OutboxOutcomes.StorableCommandMeans | src/application/outbox/payload_validator.py:185-186 | a command is storable exactly if nothing that the JSON column refuses occurs in its arguments |
| OutboxOutcomes.RowsAreFound | src/models/outbox.py:139-198 | an insert finds its row by task log and a mark by event id and publishing status, at most one each |
| OutboxOutcomes.NewRowIsDue | src/application/outbox/repository.py:435-464 | a new row is claimable exactly from its creation on, unclaimed and with all its attempts |
| OutboxOutcomes.ClaimDecides | src/application/outbox/repository.py:242-255 | a claim sets status, claimer and lease end, changes nothing else, and takes the row out of reach of later claims |
| OutboxOutcomes.CommitDecides | src/application/outbox/publisher.py:571-594 | a committed poll turns a pending row published exactly on an accepted message and failed exactly on an unregistered task or its last attempt, and else pending one attempt on after its delay |
| OutboxOutcomes.FailedRowsMetTheirEnd | src/application/outbox/publisher.py:699-744 | in every interleaving, a row that has failed met an unregistered task or its last attempt at some committed poll |
| OutboxProgress.StepBudget | src/application/outbox/publisher.py:699-744 | a committed poll lowers the total of remaining attempts, an enrolment adds one full budget, nothing else moves it |
| OutboxProgress.CommitsAreBounded | src/application/outbox/publisher.py:530-594 | in every run, with any crashes, committed polls are bounded by the initial budget plus a full budget per enrolled row |
| OutboxProgress.PollIsRunOnce | src/application/outbox/publisher.py:530-594 | the protocol's claim, send, mark and commit change table, broker and counters as one successful `run_once` whose clock stands still from mark to count |
| OutboxProgress.PollPossible | src/application/outbox/repository.py:191-241 | with all publishers at rest and a row pending, a poll can run once the row is due |
| OutboxProgress.EveryScheduleDrains | src/application/outbox/publisher.py:530-594 | in every run without new enrolments, with any publishers, crashes and broker answers, at most `Total` polls are committed, and after that many nothing is pending |
| OutboxProgress.PollingRunDrains | src/application/outbox/publisher.py:596-621 | every crash-free, enrolment-free run of one publisher from rest to rest makes at most `Total` non-empty polls, and after that many nothing is pending |
| OutboxProgress.PollsStopIffDrained | src/application/outbox/publisher.py:596-621 | at rest something is pending exactly if some poll, now or later, can claim a row |
| OutboxProgress.QueueDrains | src/application/outbox/publisher.py:596-621 | such a run exists for every script of broker answers |
| OutboxOvertaking.AheadShrinks | src/application/outbox/repository.py:223-236 | with one publisher no step puts a row before a due one |
| OutboxOvertaking.ClaimTakesAhead | src/application/outbox/repository.py:223-241 | a claim takes the due row itself or a row ahead of it |
| OutboxOvertaking.OvertakingIsBounded | src/application/outbox/publisher.py:724-737 | while a due row is passed over, each committed poll uses up one of the rows that were ahead of it at the start |
| OutboxOvertaking.OvertakingFromAnyState | src/application/outbox/publisher.py:724-737 | from any reachable state at most one commit more goes first |
| TextCodec.ParsePrintInt | src/services/media_signing.py:35-47 | parsing undoes printing on every integer |
| TextCodec.PrintedInDecimal | src/services/media_signing.py:42-43 | integers are printed in decimal with ASCII digits |
| TextCodec.SpaceAround | src/services/media_signing.py:131-134 | `int` ignores ASCII white space around a number |
| TextCodec.SplitJoin | src/services/media_signing.py:35-47 | splitting undoes joining exactly when no part holds the separator; otherwise there are too many parts |
| TextCodec.JoinSplit | src/services/media_signing.py:112-123 | joining always undoes splitting |
| TextCodec.UpperIsStable | src/services/media_signing.py:41-41 | upper-casing is idempotent |
| TextCodec.UpperCharMeans | src/services/media_signing.py:40 | ASCII letters upper-case as usual, and exactly ten other characters upper-case into ASCII |
| Base64.EncodeShape | src/services/media_signing.py:108-109 | the encoding is unpadded, URL-safe and of the exact length |
| Base64.AlphabetMeans | src/services/media_signing.py:109-110 | the URL-safe alphabet by character codes, and the standard one for the decoder |
| Base64.QuadMeans | src/services/media_signing.py:109-110 | three bytes are a number whose digits to the base 64 are the four symbols |
| Base64.EncodeByThrees | src/services/media_signing.py:109-110 | a text is encoded three bytes at a time, with two or three symbols for what is left |
| Base64.DecodeEncode | src/services/media_signing.py:108-122 | the permissive decoder, given back the padding, undoes the encoder on every byte string |
| Base64.EncodeIsInjective | src/services/media_signing.py:108-109 | distinct byte strings have distinct encodings |
| MediaSigning.PayloadRoundTrip | src/services/media_signing.py:35-47 | reading a payload back gives the capability with its method upper-cased, exactly when version and method are free of colons |
| MediaSigning.PayloadText | src/services/media_signing.py:34-48 | the payload is version, method, kind, resource id, expiry and parent between colons, in this order |
| MediaSigning.TokenText | src/services/media_signing.py:64-70 | a token is version, encoded payload and the encoded digest of the encoded payload between dots |
| MediaSigning.PayloadsAreDistinct | src/services/media_signing.py:35-47 | distinct colon-free capabilities never share a payload |
| MediaSigning.ColonsCollide | src/services/media_signing.py:35-47 | with colons two different capabilities can |
| MediaSigning.DecodeIssued | src/services/media_signing.py:119-134 | the same round trip through bytes and Base64 |
| MediaSigning.IssuesIffAscii | src/services/media_signing.py:47-71 | a token can be issued exactly when version and upper-cased method are ASCII |
| MediaSigning.TokenSplits | src/services/media_signing.py:112-116 | a token splits into its three parts exactly when the version has no dot |
| MediaSigning.VerifyIssued | src/services/media_signing.py:65-101 | the complete outcome of verifying an issued token: malformed, version, scope, expiry or the capability |
| MediaSigning.IssuedTokenOpens | src/services/media_signing.py:70-102 | an issued token is accepted exactly for its own version, kind, resource and method, its own parent or none, until it expires |
| MediaSigning.OwnTokenAccepted | src/services/media_signing.py:65-101 | an issued token is accepted for its own capability exactly until it expires |
| MediaSigning.AcceptedTokenIsDetermined | src/services/media_signing.py:73-116 | every accepted token is the one text that its payload part determines, and stands for the capability returned, in scope and in time |
| MediaSigning.ReissueIsIdentical | src/services/media_signing.py:65-101 | issuing the verified capability again gives the same token |
| PipelineState.PipelineTransaction.CompareAndSet | src/services/pipeline_state.py:177-186 | changes the status exactly when the row exists with the expected one |
| PipelineState.PipelineTransaction.RecordAudit | src/application/transition_log/repository.py:54-113 | appends the row or raises on an empty source |
| PipelineState.PipelineTransaction.TransitionSession | src/services/pipeline_state.py:119-202 | reply and new state (status, note, audit row) of a session call in every case |
| PipelineState.PipelineTransaction.TransitionTaskLog | src/services/pipeline_state.py:205-268 | the same for a task log, whose first read may be stale |
| PipelineState.ChangesIffWins | src/services/pipeline_state.py:172-186 | a call changes anything exactly when its UPDATE wins, and its reply tells so but for an empty source |
| PipelineState.SessionCallDecides | src/services/pipeline_state.py:119-202 | a session call moves exactly a legal step from the present status that no unforced requested cancel stops, with the reply that goes with each case |
| PipelineState.TaskCallDecides | src/services/pipeline_state.py:205-268 | a task-log call moves exactly a legal step from the status that it has read and that is still present |
| PipelineState.NoteAgreesWithAudit | src/services/pipeline_state.py:102-116 | an applied call records the same move in the audit row and in the driving task log's note, and touches no other note |
| PipelineState.OneWinner | src/services/pipeline_state.py:177-186 | of two racing calls from the same source status only the first can win |
| PipelineState.CallStaysExplained | src/services/pipeline_state.py:187-202 | a call keeps the audit replaying to the statuses exactly unless it wins with an empty source |
| PipelineState.ExplanationsCompose | src/services/pipeline_state.py:177-202 | histories compose |
| PipelineState.SourcesOf | src/services/pipeline_state.py:54-80 | both tables by targets: from where each status can be reached |
| PipelineHistory.CallIsMoved | src/services/pipeline_state.py:172-202 | a call in a transaction sees, writes and records what the operation does |
| PipelineHistory.OnlyWinnersWait | src/services/pipeline_state.py:177-186 | only a call whose UPDATE matches waits, and only for a transaction that has written the same row |
| PipelineHistory.StepKeepsTracked | src/services/pipeline_state.py:177-202 | every call, commit and rollback of concurrent transactions keeps the committed moves a legal path to the live state, raising calls included |
| PipelineHistory.AuditReplaysIff | src/services/pipeline_state.py:172-268 | in every run, whatever is committed: an aggregate's audit rows form a legal path from its birth to its live status if and only if every block of its lost moves ends in the status in which it began |
| PipelineHistory.OwnReplayIff | src/services/pipeline_state.py:187-202 | the same for any sequence of moves of one aggregate |
| PipelineHistory.AuditReplays | src/services/pipeline_state.py:172-268 | in every run that commits no raised call each aggregate's audit rows are an unbroken legal path from the status it was created in to its live status, and the log holds every move |
| PipelineHistory.BirthIsKept | src/services/dispatch/deferred.py:41-59 | the status an aggregate was created in stays the start of its history |
| PipelineHistory.EveryMoveIsAuthorised | src/services/pipeline_state.py:172-186 | in every run no session moves by an unforced call with a requested cancel, no task log by a call that read another status, and nothing off the tables |
| PipelineHistory.TornCommitBreaksReplay | src/application/transition_log/repository.py:101-102 | a run that commits after the empty source has raised ends in a status that the audit does not explain |
| PipelineHistory.HistoriesOfEveryRun | src/services/pipeline_state.py:54-80 | in every run, recorded or not: at most two moves per task log and none for one created in a terminal status, entries into minus exits from analyzing is 1 exactly while analyzing, never open again, no more successes than analyses |
| PipelineHistory.SessionHistory | src/services/pipeline_state.py:54-68 | open is never entered and every success uses up an exit from analyzing |
| PipelineHistory.EntriesMinusExits | src/services/pipeline_state.py:54-80 | entries minus exits of any status balance along any legal path |
| PipelineHistory.SuccessReachable | src/services/pipeline_state.py:54-68 | from every session status a legal path of the stated length ends in success |
| PipelineHistory.SuccessDistance | src/services/pipeline_state.py:54-68 | no legal path is shorter |
| SummaryAttempts.SourcesFollowTable | src/application/summary_attempt/state_machine.py:66-139 | the UPDATE guard is the transition table; it admits active sources only and every move climbs in rank |
| SummaryAttempts.MarkDecides | src/application/summary_attempt/repository.py:209-339 | from where each mark works, and which status, finish time, diagnostics and counts it leaves |
| SummaryAttempts.FindActiveForDate | src/application/summary_attempt/repository.py:341-362 | finds an active attempt of the date exactly when there is one, the highest-numbered |
| SummaryAttempts.NextAttemptNo | src/application/summary_attempt/repository.py:384-399 | one more than the largest number of the date, or 1 |
| SummaryAttempts.Claim | src/application/summary_attempt/repository.py:129-203 | inserts only into a free slot, hands back only a holder of the slot, and gives up exactly when each pass finds the slot taken and then free |
| SummaryAttempts.AttemptRepository.Transition | src/application/summary_attempt/repository.py:430-486 | applies a mark exactly from an allowed source, with its diagnostics and finish time, and otherwise changes nothing |
| SummaryHistory.RunKeepsInv | src/models/daily_summary_attempt.py:217-224 | in every run at most one attempt per date is active, finish times and diagnostics fit the status, numbers leave no gap |
| SummaryHistory.AttemptsEnd | src/application/summary_attempt/state_machine.py:66-96 | at most three moves per attempt, and a terminal row never changes |
| SummaryHistory.EveryEndIsAMark | src/application/summary_attempt/repository.py:234-339 | in every run an attempt that has ended shows for good the one mark that ended it, its time and what the caller said |
| SummaryHistory.ReadingIsLeast | src/application/summary_attempt/repository.py:384-403 | the number read is the least positive one above all numbers of the date |
| SummaryHistory.InsertDecides | src/application/summary_attempt/repository.py:405-428 | an insert adds a claimed attempt exactly if no attempt of its date is active, and else changes nothing |
| SummaryHistory.NumberingOfEveryRun | src/application/summary_attempt/repository.py:384-399 | the numbers of a date are exactly 1..k, with k attempts when no insert was stale |
| SummaryHistory.DistinctIffAllFresh | src/services/summarizer/lifecycle.py:40-54 | numbers per date stay distinct exactly when every insert still used the next number |
| SummaryHistory.DistinctIffUndisturbed | src/services/summarizer/lifecycle.py:40-54 | numbers per date stay distinct exactly when no other attempt of the date is inserted between a worker's read and its insert |
| SummaryHistory.LockPerDateKeepsNumbersDistinct | src/services/summarizer/lifecycle.py:40-54 | a lock per date from read to insert is enough |
| SummaryHistory.LoneWorkerIsFresh | src/services/summarizer/lifecycle.py:40-54 | one worker alone never inserts a stale number |
| SummaryHistory.TwoWorkersCanCollide | src/services/summarizer/lifecycle.py:40-54 | two workers can use a number twice |
| AnalysisResume.Orchestrator.GetOrCreateCheckpoint | src/services/analysis/checkpoint_writer.py:125-197 | creates a pending checkpoint, or hands back the existing one, for another fingerprint with a reset that stays in memory |
| AnalysisResume.Orchestrator.MarkCheckpointProcessing | src/services/analysis/checkpoint_writer.py:353-397 | moves the row to processing exactly when it still has the object's id and fingerprint and is resumable |
| AnalysisResume.Orchestrator.WriteTokenUsage | src/services/analysis/checkpoint_writer.py:323-350 | adds one usage row for positive tokens and refuses a second one for the same checkpoint |
| AnalysisResume.Orchestrator.HandleLoopException | src/tasks/_analyzer_orchestration.py:442-453 | marks exactly the latest processing checkpoint as error |
| AnalysisResume.Orchestrator.RunOneSubChunk | src/tasks/_analyzer_orchestration.py:514-627 | outcome and stored state of one item for every fault at every stage |
| AnalysisResume.Orchestrator.CallLlmAndWrite | src/tasks/_analyzer_orchestration.py:577-627 | the LLM call and the second transaction: all of success and usage, or none |
| AnalysisResume.Orchestrator.RunSubChunkLoop | src/tasks/_analyzer_orchestration.py:272-401 | the loop over the plan, and on normal exit it counts its LLM calls |
| AnalysisResume.LatestProcessing | src/tasks/_analyzer_orchestration.py:442-451 | the checkpoint the handler will pick |
| AnalysisRuns.ProcessKeepsInv | src/tasks/_analyzer_orchestration.py:541-627 | every item with every fault keeps the accounting invariant |
| AnalysisRuns.ProcessSucceeds | src/tasks/_analyzer_orchestration.py:541-627 | an item that is done or skipped has succeeded with its own fingerprint, and no other item's success is touched |
| AnalysisRuns.UsageNeverConflicts | src/models/llm_usage_log.py:19-23 | the unique checkpoint id of the usage log never stands in the way of a success |
| AnalysisRuns.EveryRunIsAccounted | src/tasks/_analyzer_orchestration.py:541-627 | over any runs with any inputs: no checkpoint charged twice, only successes charged, each its own tokens, calls = successes + wasted calls |
| AnalysisRuns.SuccessesStand | src/services/analysis/checkpoint_writer.py:163-172 | over any runs with any inputs no success reverts and no checkpoint takes on another fingerprint |
| AnalysisRuns.FinishedRunSucceeded | src/tasks/_analyzer_orchestration.py:320-366 | a normal exit leaves every item of the plan succeeded with its own fingerprint |
| AnalysisRuns.ResumeNeverRepaysSuccess | src/tasks/_analyzer_orchestration.py:320-366 | over any interrupted runs of one plan successes form a growing prefix, calls = successes + calls whose success was not committed, and a last run without faults finishes with exactly the missing calls |
| AnalysisRuns.FineItem | src/tasks/_analyzer_orchestration.py:541-627 | without a fault an item with a changed input ends late without a trace, a succeeded one is skipped, any other is called once and succeeds |
| AnalysisRuns.RunFinishesIffInputsMatch | src/services/analysis/checkpoint_writer.py:374-395 | a fault-free, uncancelled run finishes exactly when every item with a checkpoint has it for the same input, and otherwise ends late at the first that has not, without a call for it |
| AnalysisRuns.ChangedInputStallsForever | src/services/analysis/checkpoint_writer.py:374-395 | after any further runs, no run over a plan with a changed item finishes, and a fault-free one ends late |
| AnalysisRuns.ChangedInputStalls | src/services/analysis/checkpoint_writer.py:374-395 | a concrete file and prompt change, after a success and after a failed call |
| AnalysisResults.FetchedDecides | src/services/analysis/checkpoint_writer.py:125-197 | the object that the caller gets for a new, a matching and a changed item, and the table it leaves |
| AnalysisResults.HandledDecides | src/tasks/_analyzer_orchestration.py:654-664 | the handler moves exactly the newest checkpoint in processing to error |
| AnalysisResults.FaultDecides | src/tasks/_analyzer_orchestration.py:514-627 | the outcome of each fault and the state in which it leaves the item |
| AnalysisResults.ProcessResults | src/services/analysis/checkpoint_writer.py:264-320 | a new success is the item's own and holds the payload and tokens of its call; a skipped item keeps what it had |
| AnalysisResults.FinishedRunResults | src/tasks/_analyzer_orchestration.py:272-401 | a finished run leaves for every item the payload and tokens its call returned, or what it held if it had succeeded before |
| AnalysisResults.EverySuccessIsAnAnswer | src/services/analysis/checkpoint_writer.py:292-311 | over any runs a checkpoint is a success exactly if it holds a payload, and payload and tokens are those of one committed call for this item and input |
| AnalysisResults.AttemptsAreCalls | src/services/analysis/checkpoint_writer.py:374-402 | the attempt count of a checkpoint is the number of calls ever made for its item |
| SessionTimeline.ResolveDuration | src/services/session_video.py:35-40 | never less than a second; the probed value, or the whole seconds of the span |
| SessionTimeline.BuildFileSubChunks | src/services/session_analysis_video.py:50-76 | one chunk per file in order at the summed offset, or the error for the first empty path or for no files |
| SessionTimeline.ChunksAreFiles | src/services/session_analysis_video.py:57-76 | sub-chunk i is file i, starts where the one before it ends, and has the probed duration if there is one |
| SessionTimeline.SubChunksTile | src/services/session_analysis_video.py:57-76 | offsets increase strictly and each second of the session, and no other, lies in exactly one chunk |
| SessionTimeline.PlanItemsAreDistinct | src/services/session_analysis_video.py:60-72 | the plan meets what the resumption results assume |
| TokenUsage.Recorded | src/services/llm_qos.py:49-84 | only positive usage is recorded, with prompt plus completion when no total is given |
| TokenQuota.QuotaCountsTheDay | src/services/llm_qos.py:159-167 | the sum that the global quota looks at is the day's total of the statistics |
| TokenQuota.CheckPasses | src/services/llm_qos.py:32-46 | a check passes exactly if the day is below the common quota and the provider below its own or, for want of one, the common quota per provider |
| TokenQuota.ProviderShare | src/services/llm_qos.py:160-167 | a provider's sum grows by exactly its own rows of the day |
| TokenQuota.SummaryCalls | src/services/summarizer/generation.py:266-380 | a serial summary makes one call per section and one for the rollup, and one more wherever a reply cannot be parsed |
| TokenQuota.AnswerCalls | src/application/qa/agent.py:131-220 | an answer makes a call per round that asks for tools and one more, at most three |
| TokenQuota.CallPossible | src/application/qa/agent.py:132-148 | a call is made exactly with calls left and, for an answer only, with the committed log below both quotas |
| TokenQuota.StepPays | src/services/llm_qos.py:49-84 | calls, failures, commits, rollbacks and midnights never raise a day's committed tokens plus what the jobs under way may still add |
| TokenQuota.CheckFindsRoom | src/services/llm_qos.py:32-46 | only a check raises that sum, and only while the day is below its quota |
| TokenQuota.OvershootIsBounded | src/services/llm_qos.py:32-46 | in every run of analyses, answers and summaries with overlapping sessions, every day's total and every provider's share is unchanged or below its quota plus, per worker, the largest rows that one check lets through |
| TokenQuota.OvershootIsAttained | src/tasks/_summarizer_orchestration.py:247-272 | from every resting state in which a check passes, for every kind of job, some run adds exactly that much |
| TokenQuota.KeepsBelowIff | src/application/qa/agent.py:132-148 | every run keeps an unshadowed quota up to n largest rows per worker if and only if no job records more than n rows on one check |
| TokenQuota.OneCallIffOnlyAnalysis | src/tasks/_analyzer_orchestration.py:553-626 | one largest call per worker is the bound if and only if sub-chunk analyses are the only jobs |
| TokenQuota.OneWorkerOvershoots | src/application/qa/agent.py:132-220 | one worker, quota 1000, 999 used: one answer ends at 3999 |
| TokenUsage.GroupingConserves | src/services/llm_qos.py:90-107 | grouping conserves every day's tokens, whatever the order of the groups |
| TokenUsage.AccumulateDays | src/services/llm_qos.py:110-144 | the accumulation loop builds each day's totals and provider entries |
| TokenUsage.GetDailyUsageStats | src/services/llm_qos.py:87-146 | one entry per day that occurs, newest first, with that day's sums |
| TokenUsage.WindowHolds | src/services/llm_qos.py:88-89 | the window holds exactly the last `days` days, and today if that is less than one |
| TokenUsage.EveryEntryHasName | src/services/llm_qos.py:134-137 | an entry has the recorded name, else the present one, else one made from the id, and never none |
| TokenUsage.EntriesInOrder | src/services/llm_qos.py:131-144 | a day lists its entries in the order of the groups, each with its own figures |
| TokenUsage.DailyFiguresAddUp | src/services/llm_qos.py:87-146 | each day's figures equal the sum of its log rows and the sum of its provider entries; days outside the window have none |
| DirectoryScan.ScanDirectory | src/adapters/xiaomi_parser.py:99-173 | the nested loops return what the folder-by-folder pruned scan defines |
| DirectoryScan.ScanFolder | src/adapters/xiaomi_parser.py:138-171 | the inner loop filters every file by its own time |
| DirectoryScan.ClipsStartWithinTheHour | src/adapters/xiaomi_parser.py:33-68 | every clip with a clock reading in its name starts within its folder's hour, in UTC too |
| DirectoryClips.ParsedTimes | src/adapters/xiaomi_parser.py:44-76 | the parser finds a clip exactly with a readable hour and a clock reading, starting at that minute and second and ending 60 seconds later |
| DirectoryClips.ParserRaises | src/adapters/xiaomi_parser.py:56-69 | it raises exactly on a number of more than 31 bits and on a clip outside the 3652059 days of the calendar |
| DirectoryClips.ScanFinds | src/adapters/xiaomi_parser.py:99-173 | a scan that returns finds exactly the clips of its directories that start after the lower and not after the upper bound |
| DirectoryClips.ScanInOrder | src/adapters/xiaomi_parser.py:115-173 | the clips come in the order of the root's listing |
| DirectoryClips.FilesInOrder | src/adapters/xiaomi_parser.py:138-171 | within a folder they come in the order of its listing |
| DirectoryClips.OneFolder | src/adapters/xiaomi_parser.py:134-171 | a folder that is not skipped gives what its files give, each at most one clip |
| DirectoryClips.FolderNameIsRead | src/adapters/xiaomi_parser.py:45-49 | the first ten digits are year, month, day and hour |
| DirectoryClips.FileNameIsRead | src/adapters/xiaomi_parser.py:52-57 | the names that cameras write are read as their minute and second |
| DirectoryClips.HoursFollow | src/adapters/xiaomi_parser.py:59 | from the first hour of year 1 to the last of 9999 each hour starts 3600 seconds after the one before |
| DirectoryClips.YearLength | src/adapters/xiaomi_parser.py:59 | years have 366 days by the Gregorian rule and 365 otherwise |
| DirectoryScan.PruningLosesNothing | src/adapters/xiaomi_parser.py:120-154 | whenever both scans return, they return the same list in the same order |
| DirectoryScan.FileRaisesIff | src/adapters/xiaomi_parser.py:44-76 | parsing a file raises exactly when a number in its name does not fit or its clip leaves the calendar |
| DirectoryScan.PrefilterMeans | src/adapters/xiaomi_parser.py:120-132 | the prefilter raises exactly when the folder's hour, or with a lower bound the next one, leaves the calendar, and skips exactly folders outside the window |
| DirectoryScan.PrunedRefinesPlain | src/adapters/xiaomi_parser.py:115-154 | they agree exactly when both or neither meet what makes them raise, told from names, offsets and window alone |
| DirectoryScan.OrdinaryYearsAgree | src/adapters/xiaomi_parser.py:115-154 | without folders of the years 1 and 9999 each scan raises exactly on a number that does not fit in a folder it enters, and they agree exactly unless all such folders are skipped |
| DirectoryScan.LastHourRaisesOnlyPruned | src/adapters/xiaomi_parser.py:126-127 | the folder of the last hour makes only the pruned scan raise |
| DirectoryScan.HugeStampRaisesOnlyPlain | src/adapters/xiaomi_parser.py:53-69 | `2026010100/3000000000M00S_1.mp4` before the window makes only the plain scan raise |
| ProviderDefaults.ProviderAdmin.ResetOtherDefaultProviders | src/services/provider_selector.py:76-93 | clears the flag of every other capable provider, role by role |
| ProviderDefaults.ProviderAdmin.CreateProvider | src/application/llm_providers/use_cases.py:136-162 | stores the provider that the request means, or refuses and changes nothing |
| ProviderDefaults.ProviderAdmin.UpdateProvider | src/application/llm_providers/use_cases.py:165-210 | the same for an update; the default-disabling error never occurs |
| ProviderDefaults.ProviderAdmin.DeleteProvider | src/application/llm_providers/use_cases.py:213-239 | removes a provider that is neither default, nor selected, nor referenced, or changes nothing |
| ProviderDefaults.ProviderAdmin.SetDefaultProvider | src/application/llm_providers/use_cases.py:242-266 | makes a capable provider the one default of the role and enables it |
| ProviderDefaults.ProviderAdmin.EnableProvider | src/application/llm_providers/use_cases.py:269-273 | enables an existing provider |
| ProviderDefaults.ProviderAdmin.DisableProvider | src/application/llm_providers/use_cases.py:276-282 | disables a provider that is no default |
| ProviderDefaults.ProviderAdmin.FindEnabledProvider | src/services/provider_selector.py:44-65 | an enabled default if there is one, else some enabled capable provider, else none |
| ProviderDefaults.StepKeepsInv | src/application/llm_providers/use_cases.py:136-282 | every use case keeps the provider invariant |
| ProviderDefaults.EverySequenceKeepsInv | src/application/llm_providers/use_cases.py:136-282 | after any sequence: one default per role at most, enabled and capable, question answering implies tool calling, nobody without capability |
| ProviderDefaults.ActiveIsTheDefault | src/services/provider_selector.py:44-65 | the selection is the unique default whenever one exists |
| ProviderDefaults.DeleteKeepsServing | src/application/llm_providers/use_cases.py:213-239 | deletion never leaves a served role without a provider |
| ProviderDefaults.CreateDecides | src/application/llm_providers/use_cases.py:136-162 | when a new provider is refused, and every field that it gets |
| ProviderDefaults.UpdateDecides | src/application/llm_providers/use_cases.py:165-210 | when an update is refused, and every field that it leaves, from the request over the row |
| ProviderDefaults.OthersDecide | src/application/llm_providers/use_cases.py:136-266 | a sibling loses its flag exactly if it can do the role and the stored row has become its default; nothing else changes in it |
| ProviderDefaults.SetDefaultDecides | src/application/llm_providers/use_cases.py:242-266 | the refusals of a new default, and every field that it gets |
| ProviderDefaults.RemovalDecides | src/application/llm_providers/use_cases.py:213-282 | deleting, disabling and enabling: when refused, and the exact table after it |
| ProviderDefaults.SelectionDecides | src/services/provider_selector.py:44-65 | the selection is an enabled capable provider, a default if one is enabled, and none exactly if there is none |
| ProviderDefaults.UseCasesServe | src/application/llm_providers/use_cases.py:213-282 | enabling makes exactly a capable provider serve, disabling and deleting keep it from serving, a new default is the one selected |
| ProviderDefaults.DefaultLostIff | src/application/llm_providers/use_cases.py:165-210 | a role loses its default exactly by an accepted update of it that drops flag or capability |
| ProviderDefaults.TestKeepsInvIff | src/application/llm_providers/use_cases.py:285-313 | the connectivity test keeps the invariant exactly when it finds what the row relies on |
| AttentionQuery.ConditionMeans | src/application/query/service.py:48-62 | the SQL condition is true exactly for attention events that do not rest on an infinity and unknown exactly for other events with a NULL it looks at |
| AttentionQuery.AgreeUnlessInfinityIsKey | src/services/attention.py:41-54 | condition and label agree on all events if and only if `inf` is not a key |
| AttentionQuery.EntityAgrees | src/services/attention.py:18-24 | the SQL and the Python test of one entity agree |
| AttentionQuery.AttentionMeans | src/services/attention.py:18-54 | an event is one for attention by its type, an unknown person among its entities, or a focus key among its matches |
| AttentionQuery.OnlyTextIsKey | src/schemas/home_profile.py:42-48 | only a string can print as a validated key, but for an infinity that prints as `inf` |
| AttentionQuery.HomeQueryService.AttentionKeys | src/application/query/service.py:38-46 | the first reading of the profile is kept |
| AttentionQuery.HomeQueryService.SearchEvents | src/application/query/service.py:94-145 | filter and labels use the same keys, even if the profile changes in between, and the search raises exactly when a row it would return holds an entity that is no object |
| AttentionQuery.HomeQueryService.SubjectsOfRow | src/application/query/service.py:235-241 | the subjects of a row in order, or the error for an entity that is no object |
| AttentionQuery.ResultsTell | src/application/query/service.py:235-256 | result i is row i of the selection, up to the limit, with its own label and subjects |
| AttentionQuery.SelectedInOrder | src/application/query/service.py:94-145 | the selection keeps the order of the rows and decides each for itself |
| AttentionQuery.SubjectsAreNames | src/application/query/service.py:238-241 | each entity adds the matched name if it has one, else the displayed one, else nothing, behind the names before it |
| AttentionQuery.SearchForAttention | src/application/query/service.py:231-256 | attention=true returns exactly the attention events of the otherwise selected rows but those that rest on an infinity, all labelled so |
| AttentionQuery.SearchForTheRest | src/application/query/service.py:231-256 | attention=false returns the others except the undecided ones, labelled as attention exactly when they rest on an infinity |
| AttentionQuery.TheTwoSearchesPartition | src/application/query/service.py:231-233 | both searches and the undecided rows make up the whole |

## Left out

- OutboxProtocol.Enabled: the claim query with its row locks is one step and enrolment's emit and insert are one step; event ids of new rows are assumed unused, as `uuid4` makes them.
- OutboxRepository.EnrollWithTaskLog: constructor checks of `OutboxCommand` and `OutboxEvent` and the serialized byte size of a payload (an abstract size function) are not modelled; floats are finite and strings hold no lone surrogates.
- RetryPolicy.NextAttemptAt: the wall clock read by the backoff is the time of the mark; error texts arrive already truncated.
- OutboxPublisher.RunOnce: all publishers of the protocol share one configuration; health checks and the signal loop only repeat polls.
- OutboxOvertaking.OvertakingIsBounded: is about a single publisher; with several, a locked row ahead can come back after a crash of its holder while the due row is processed by another.
- MediaSigning.Verify: HMAC is uninterpreted, so nothing is said about forging; Python's limit of 4300 digits per integer is not modelled.
- PipelineHistory.AuditReplays: covers the two transition functions; the writers that set a status without them (`src/services/dispatch/finalize.py`, `src/api`, maintenance sweeps) are not part of this model.
- SummaryHistory.Next: a statement is committed when it is executed; a rolled-back insert is one that never happened.
- AnalysisRuns.EveryRunIsAccounted: one session and one analysis run id with runs that do not overlap; the session and task-log transitions of the failure handler and lease renewal are not modelled.
- ProviderDefaults.EverySequenceKeepsInv: use cases run one after the other; explicit nulls in a request, aliases of provider types and two administrators committing at the same time are not modelled.
- DirectoryScan.ScanDirectory: names are ASCII, the cancellation callback and file-system errors are left out, and the zone offset is constant within each clock hour.
- AttentionQuery.HomeQueryService.SearchEvents: the other filters are one predicate, rows come in the order of the query, and a JSON column holds an array or SQL NULL.
- TokenQuota.OvershootIsBounded: quotas and provider settings stay as they are during a run, and what counts is what is recorded; tokens of a rolled-back job are in no sum.
- TokenUsage.GetDailyUsageStats: a window that reaches before the first calendar day raises in the source and is not modelled.
- Celery, Redis, HTTP, ffmpeg, prompts, i18n, log redaction, the frontend and migrations: plumbing around these cores.
- Session building, summarizer orchestration and finalizers: they call the transitions modelled here but add only sequencing of single calls.
