/** Runs of many concurrent transactions over the two pipeline machines, and the shape of the
    histories that their audit log can hold. */
module PipelineHistory {
  import opened Outcomes
  import opened PipelineState

  // ---------------------------------------------------------------------------
  // Concurrent transactions
  // ---------------------------------------------------------------------------

  /** An UPDATE that won, and its call. It is lost to the audit if the call raised after it. */
  datatype Move = Move(row: AuditRow, call: Call, recorded: bool)

  /** `writes` are the uncommitted statuses, whose rows stay locked. */
  datatype Tx = Tx(writes: map<Aggregate, Status>, moves: seq<Move>)

  /** `history` are the committed moves; only the recorded ones are in the audit log. */
  datatype Db = Db(
    born: map<Aggregate, Status>, live: map<Aggregate, Status>, history: seq<Move>, open: map<int, Tx>)

  function Rows(moves: seq<Move>): seq<AuditRow> {
    if moves == [] then [] else Rows(moves[..|moves| - 1]) + [moves[|moves| - 1].row]
  }

  function Recorded(moves: seq<Move>): seq<AuditRow> {
    if moves == [] then []
    else Recorded(moves[..|moves| - 1]) + if moves[|moves| - 1].recorded then [moves[|moves| - 1].row] else []
  }

  /** The audit log. */
  function Log(db: Db): seq<AuditRow> {
    Recorded(db.history)
  }

  datatype Step =
    | Create(aggregate: Aggregate, birth: Status)
    | Begin(t: int)
    | Do(t: int, call: Call)
    | Commit(t: int)
    | Rollback(t: int)

  /** Sessions are created open; task logs are created in whatever status their creator chooses,
      a deferred scan's as skipped. */
  predicate LegalBirth(aggregate: Aggregate, birth: Status) {
    if aggregate.VideoSession? then birth == Open
    else birth in {Pending, Running, Success, Skipped, Failed, Timeout, Cancelled}
  }

  /** What a transaction sees: its own writes over the committed statuses. */
  function Seen(db: Db, t: int): map<Aggregate, Status>
    requires t in db.open
  {
    db.live + db.open[t].writes
  }

  predicate LockedByOther(db: Db, t: int, aggregate: Aggregate) {
    exists u :: u in db.open && u != t && aggregate in db.open[u].writes
  }

  /** An UPDATE that matches a row waits for other transactions' locks on it; one that matches
      nothing does not wait. */
  predicate Enabled(db: Db, step: Step) {
    match step
    case Create(aggregate, birth) => aggregate !in db.live && LegalBirth(aggregate, birth)
    case Begin(t) => t !in db.open
    case Do(t, call) => t in db.open && (Wins(Seen(db, t), call) ==> !LockedByOther(db, t, Target(call)))
    case Commit(t) => t in db.open
    case Rollback(t) => t in db.open
  }

  /** Only a call that wins waits, and only for a transaction that has written the same row. */
  lemma OnlyWinnersWait(db: Db, t: int, call: Call)
    requires t in db.open
    ensures Enabled(db, Do(t, call)) <==>
      (Wins(Seen(db, t), call) ==> forall u :: u in db.open && u != t ==> Target(call) !in db.open[u].writes)
  {
  }

  function AfterCall(tx: Tx, seen: map<Aggregate, Status>, call: Call): Tx {
    if Wins(seen, call)
    then Tx(tx.writes[Target(call) := call.after], tx.moves + [Move(RowOf(call), call, call.source != "")])
    else tx
  }

  /** What a transaction sees and has recorded after a call is what the operation leaves. */
  lemma CallIsMoved(db: Db, t: int, call: Call)
    requires t in db.open
    ensures var tx := AfterCall(db.open[t], Seen(db, t), call);
      var view := Moved(View(Seen(db, t), map[], Recorded(db.open[t].moves)), call);
      db.live + tx.writes == view.statuses && Recorded(tx.moves) == view.rows
  {
    hide Wins;
    if Wins(Seen(db, t), call) {
      assert db.live + db.open[t].writes[Target(call) := call.after] == Seen(db, t)[Target(call) := call.after];
    }
  }

  function Apply(db: Db, step: Step): Db
    requires Enabled(db, step)
  {
    match step
    case Create(aggregate, birth) =>
      db.(born := db.born[aggregate := birth], live := db.live[aggregate := birth])
    case Begin(t) => db.(open := db.open[t := Tx(map[], [])])
    case Do(t, call) => db.(open := db.open[t := AfterCall(db.open[t], Seen(db, t), call)])
    case Commit(t) =>
      db.(live := db.live + db.open[t].writes, history := db.history + db.open[t].moves, open := db.open - {t})
    case Rollback(t) => db.(open := db.open - {t})
  }

  predicate Runnable(db: Db, steps: seq<Step>)
    decreases |steps|
  {
    steps == [] || (Enabled(db, steps[0]) && Runnable(Apply(db, steps[0]), steps[1..]))
  }

  function After(db: Db, steps: seq<Step>): Db
    requires Runnable(db, steps)
    decreases |steps|
  {
    if steps == [] then db else After(Apply(db, steps[0]), steps[1..])
  }

  // ---------------------------------------------------------------------------
  // The committed moves lead to the live state
  // ---------------------------------------------------------------------------

  predicate HistoryOk(born: map<Aggregate, Status>, live: map<Aggregate, Status>, history: seq<Move>) {
    && born.Keys == live.Keys
    && (forall a :: a in live ==> Explains(born[a], Rows(history), a, live[a]))
    && (forall i :: 0 <= i < |history| ==> history[i].row.aggregate in live)
    && (forall a :: a in born ==> LegalBirth(a, born[a]))
  }

  predicate TxOk(live: map<Aggregate, Status>, tx: Tx) {
    && tx.writes.Keys <= live.Keys
    && (forall i :: 0 <= i < |tx.moves| ==> tx.moves[i].row.aggregate in tx.writes)
    && (forall a :: a in tx.writes ==> Explains(live[a], Rows(tx.moves), a, tx.writes[a]))
  }

  lemma {:induction false} RowsAt(moves: seq<Move>)
    ensures |Rows(moves)| == |moves| && forall i :: 0 <= i < |moves| ==> Rows(moves)[i] == moves[i].row
  {
    if moves != [] {
      RowsAt(moves[..|moves| - 1]);
    }
  }

  lemma {:induction false} RowsOfBoth(a: seq<Move>, b: seq<Move>)
    ensures Rows(a + b) == Rows(a) + Rows(b)
  {
    if b == [] {
      assert a + b == a;
    } else {
      RowsOfBoth(a, b[..|b| - 1]);
      assert (a + b)[..|a + b| - 1] == a + b[..|b| - 1];
    }
  }

  predicate LocksDisjoint(open: map<int, Tx>) {
    forall t, u, a :: t in open && u in open && t != u && a in open[t].writes ==> a !in open[u].writes
  }

  predicate Tracked(db: Db) {
    && HistoryOk(db.born, db.live, db.history)
    && (forall t :: t in db.open ==> TxOk(db.live, db.open[t]))
    && LocksDisjoint(db.open)
  }

  lemma CreateKeepsTracked(db: Db, aggregate: Aggregate, birth: Status)
    requires Tracked(db) && Enabled(db, Create(aggregate, birth))
    ensures Tracked(Apply(db, Create(aggregate, birth)))
  {
    hide Explains, Rows, LegalBirth;
    SilentHistory(db, aggregate, birth);
    var live' := db.live[aggregate := birth];
    forall t | t in db.open
      ensures TxOk(live', db.open[t])
    {
      assert TxOk(db.live, db.open[t]);
    }
  }

  lemma SilentHistory(db: Db, aggregate: Aggregate, birth: Status)
    requires Tracked(db) && aggregate !in db.live
    ensures Explains(birth, Rows(db.history), aggregate, birth)
  {
    hide Explains, Rows;
    RowsAt(db.history);
    SilentLogExplainsStay(birth, Rows(db.history), aggregate);
  }

  lemma CallKeepsTx(db: Db, t: int, call: Call)
    requires Tracked(db) && t in db.open
    ensures TxOk(db.live, AfterCall(db.open[t], Seen(db, t), call))
  {
    hide Allowed, Explains, GivesUp, Rows;
    var tx, seen := db.open[t], Seen(db, t);
    assert TxOk(db.live, tx);
    if Wins(seen, call) {
      var tx' := AfterCall(tx, seen, call);
      RowsAt(tx.moves);
      RowsOfCall(tx.moves, call);
      forall a | a in tx'.writes
        ensures Explains(db.live[a], Rows(tx'.moves), a, tx'.writes[a])
      {
        if a !in tx.writes {
          SilentLogExplainsStay(db.live[a], Rows(tx.moves), a);
        }
        RowExtends(db.live[a], Rows(tx.moves), RowOf(call), a, seen[a]);
      }
    }
  }

  lemma RowsOfCall(moves: seq<Move>, call: Call)
    ensures Rows(moves + [Move(RowOf(call), call, call.source != "")]) == Rows(moves) + [RowOf(call)]
  {
  }

  lemma WritesAfterCall(db: Db, t: int, call: Call)
    requires t in db.open
    ensures var writes := db.open[t].writes; var writes' := AfterCall(db.open[t], Seen(db, t), call).writes;
      writes'.Keys == if Wins(Seen(db, t), call) then writes.Keys + {Target(call)} else writes.Keys
  {
  }

  lemma CallKeepsTracked(db: Db, t: int, call: Call)
    requires Tracked(db) && Enabled(db, Do(t, call))
    ensures Tracked(Apply(db, Do(t, call)))
  {
    hide TxOk, HistoryOk, Wins, AfterCall;
    CallKeepsTx(db, t, call);
    var open' := Apply(db, Do(t, call)).open;
    WritesAfterCall(db, t, call);
    if Wins(Seen(db, t), call) {
      assert forall u :: u in db.open && u != t ==> Target(call) !in db.open[u].writes;
    }
  }

  lemma CommitKeepsTracked(db: Db, t: int)
    requires Tracked(db) && t in db.open
    ensures Tracked(Apply(db, Commit(t)))
  {
    hide Rows;
    var tx := db.open[t];
    var db' := Apply(db, Commit(t));
    assert TxOk(db.live, tx);
    RowsAt(tx.moves);
    RowsOfBoth(db.history, tx.moves);
    forall a | a in db'.live
      ensures Explains(db.born[a], Rows(db'.history), a, db'.live[a])
    {
      if a !in tx.writes {
        SilentLogExplainsStay(db.live[a], Rows(tx.moves), a);
      }
      ExplanationsCompose(db.born[a], Rows(db.history), db.live[a], Rows(tx.moves), db'.live[a], a);
    }
    hide Explains;
    forall u | u in db'.open
      ensures TxOk(db'.live, db'.open[u])
    {
      assert TxOk(db.live, db.open[u]);
    }
  }

  lemma StepKeepsTracked(db: Db, step: Step)
    requires Tracked(db) && Enabled(db, step)
    ensures Tracked(Apply(db, step))
  {
    match step {
      case Create(aggregate, birth) => CreateKeepsTracked(db, aggregate, birth);
      case Do(t, call) => CallKeepsTracked(db, t, call);
      case Commit(t) => CommitKeepsTracked(db, t);
      case _ =>
    }
  }

  lemma {:induction false} RunKeepsTracked(db: Db, steps: seq<Step>)
    requires Tracked(db) && Runnable(db, steps)
    ensures Tracked(After(db, steps))
    decreases |steps|
  {
    hide Tracked, Enabled, Apply;
    if steps != [] {
      StepKeepsTracked(db, steps[0]);
      RunKeepsTracked(Apply(db, steps[0]), steps[1..]);
    }
  }

  const EMPTY := Db(map[], map[], [], map[])

  // ---------------------------------------------------------------------------
  // When the audit replays to the live state
  // ---------------------------------------------------------------------------

  function Own(moves: seq<Move>, aggregate: Aggregate): seq<Move> {
    if moves == [] then []
    else
      Own(moves[..|moves| - 1], aggregate)
      + if moves[|moves| - 1].row.aggregate == aggregate then [moves[|moves| - 1]] else []
  }

  /** `m[i..j]` are all the lost moves between two recorded ones, or before the first or after the
      last of them. */
  predicate IsLostBlock(m: seq<Move>, i: nat, j: nat)
    requires i < j <= |m|
  {
    && (i == 0 || m[i - 1].recorded) && (j == |m| || m[j].recorded)
    && forall k :: i <= k < j ==> !m[k].recorded
  }

  /** Every block of lost moves ends in the status in which it began. */
  predicate LostMovesCancel(m: seq<Move>) {
    forall i, j :: 0 <= i < j <= |m| && IsLostBlock(m, i, j) ==> m[i].row.before == m[j - 1].row.after
  }

  /** The same, but for a block at the end. */
  predicate InnerMovesCancel(m: seq<Move>) {
    forall i, j :: 0 <= i < j < |m| && IsLostBlock(m, i, j) ==> m[i].row.before == m[j - 1].row.after
  }

  /** Where the lost moves at the end begin. */
  function LostFrom(m: seq<Move>): (i: nat)
    ensures i <= |m| && (forall k :: i <= k < |m| ==> !m[k].recorded)
    ensures i == 0 || m[i - 1].recorded
  {
    if m == [] || m[|m| - 1].recorded then |m| else LostFrom(m[..|m| - 1])
  }

  predicate AllOf(m: seq<Move>, aggregate: Aggregate) {
    forall i :: 0 <= i < |m| ==> m[i].row.aggregate == aggregate
  }

  lemma LastBlock(m: seq<Move>)
    ensures LostMovesCancel(m) <==>
      InnerMovesCancel(m) && (LostFrom(m) < |m| ==> m[LostFrom(m)].row.before == m[|m| - 1].row.after)
  {
    var s := LostFrom(m);
    if s < |m| {
      assert IsLostBlock(m, s, |m|);
    }
    assert s > 0 ==> m[s - 1].recorded;
    forall i, j | 0 <= i < j <= |m| && IsLostBlock(m, i, j)
      ensures j < |m| || i == s
    {
    }
  }

  lemma BlocksOfPrefix(m: seq<Move>)
    requires m != []
    ensures var front := m[..|m| - 1];
      InnerMovesCancel(m) <==> if m[|m| - 1].recorded then LostMovesCancel(front) else InnerMovesCancel(front)
  {
    var front := m[..|m| - 1];
    forall i, j | 0 <= i < j < |m|
      ensures IsLostBlock(m, i, j) <==> IsLostBlock(front, i, j) && (j < |front| || m[|front|].recorded)
    {
    }
  }

  lemma ReplayLast(start: Status, log: seq<AuditRow>, row: AuditRow, aggregate: Aggregate)
    ensures Unbroken(start, log + [row], aggregate) <==>
      && Unbroken(start, log, aggregate)
      && (row.aggregate == aggregate ==>
            row.before == Replay(start, log, aggregate) && Allowed(aggregate, row.before, row.after))
    ensures Replay(start, log + [row], aggregate)
         == if row.aggregate == aggregate then row.after else Replay(start, log, aggregate)
  {
  }

  /** After lost moves the audit still shows the status in which they began. */
  lemma {:induction false} AuditLags(start: Status, m: seq<Move>, aggregate: Aggregate)
    requires AllOf(m, aggregate) && Unbroken(start, Rows(m), aggregate)
    ensures Replay(start, Recorded(m), aggregate)
         == if LostFrom(m) < |m| then m[LostFrom(m)].row.before else Replay(start, Rows(m), aggregate)
  {
    hide Allowed, Unbroken, Replay;
    if m != [] {
      var front, last := m[..|m| - 1], m[|m| - 1];
      ReplayLast(start, Rows(front), last.row, aggregate);
      ReplayLast(start, Recorded(front), last.row, aggregate);
      AuditLags(start, front, aggregate);
      assert Recorded(front) + [] == Recorded(front);
    } else {
      assert Rows(m) == Recorded(m);
    }
  }

  lemma {:induction false} OwnReplayIff(start: Status, m: seq<Move>, aggregate: Aggregate)
    requires AllOf(m, aggregate) && Unbroken(start, Rows(m), aggregate)
    ensures Unbroken(start, Recorded(m), aggregate) <==> InnerMovesCancel(m)
    ensures Explains(start, Recorded(m), aggregate, Replay(start, Rows(m), aggregate)) <==> LostMovesCancel(m)
  {
    if m == [] {
      assert InnerMovesCancel(m) && LostMovesCancel(m) && Unbroken(start, [], aggregate);
    } else {
      hide Allowed, InnerMovesCancel, LostMovesCancel, Unbroken, Replay;
      var front, last := m[..|m| - 1], m[|m| - 1];
      LastBlock(m);
      AuditLags(start, m, aggregate);
      ReplayLast(start, Rows(front), last.row, aggregate);
      ReplayLast(start, Recorded(front), last.row, aggregate);
      OwnReplayIff(start, front, aggregate);
      BlocksOfPrefix(m);
      assert Recorded(front) + [] == Recorded(front);
    }
  }

  function OwnRows(log: seq<AuditRow>, aggregate: Aggregate): seq<AuditRow> {
    if log == [] then []
    else
      OwnRows(log[..|log| - 1], aggregate)
      + if log[|log| - 1].aggregate == aggregate then [log[|log| - 1]] else []
  }

  /** Only an aggregate's own rows matter for its replay. */
  lemma {:induction false} OthersDoNotMatter(start: Status, log: seq<AuditRow>, aggregate: Aggregate)
    ensures var own := OwnRows(log, aggregate);
      && (Unbroken(start, log, aggregate) <==> Unbroken(start, own, aggregate))
      && Replay(start, log, aggregate) == Replay(start, own, aggregate)
  {
    if log != [] {
      hide Allowed, Unbroken, Replay;
      var front, last := log[..|log| - 1], log[|log| - 1];
      OthersDoNotMatter(start, front, aggregate);
      assert front + [last] == log && OwnRows(front, aggregate) + [] == OwnRows(front, aggregate);
      ReplayLast(start, front, last, aggregate);
      ReplayLast(start, OwnRows(front, aggregate), last, aggregate);
    }
  }

  lemma OwnRowsOfAppended(log: seq<AuditRow>, row: AuditRow, aggregate: Aggregate)
    ensures OwnRows(log + [row], aggregate)
         == if row.aggregate == aggregate then OwnRows(log, aggregate) + [row] else OwnRows(log, aggregate)
  {
  }

  lemma MovesOfAppended(moves: seq<Move>, move: Move, aggregate: Aggregate)
    ensures Rows(moves + [move]) == Rows(moves) + [move.row]
    ensures Recorded(moves + [move]) == if move.recorded then Recorded(moves) + [move.row] else Recorded(moves)
    ensures Own(moves + [move], aggregate)
         == if move.row.aggregate == aggregate then Own(moves, aggregate) + [move] else Own(moves, aggregate)
  {
  }

  predicate Commutes(moves: seq<Move>, aggregate: Aggregate) {
    var own := Own(moves, aggregate);
    && AllOf(own, aggregate)
    && Rows(own) == OwnRows(Rows(moves), aggregate) && Recorded(own) == OwnRows(Recorded(moves), aggregate)
  }

  lemma CommutesStep(front: seq<Move>, last: Move, aggregate: Aggregate)
    requires Commutes(front, aggregate)
    ensures Commutes(front + [last], aggregate)
  {
    hide Rows, Recorded, Own, OwnRows;
    MovesOfAppended(front, last, aggregate);
    MovesOfAppended(Own(front, aggregate), last, aggregate);
    OwnRowsOfAppended(Rows(front), last.row, aggregate);
    OwnRowsOfAppended(Recorded(front), last.row, aggregate);
  }

  lemma {:induction false} OwnCommutes(moves: seq<Move>, aggregate: Aggregate)
    ensures Commutes(moves, aggregate)
  {
    if moves != [] {
      hide Commutes;
      OwnCommutes(moves[..|moves| - 1], aggregate);
      CommutesStep(moves[..|moves| - 1], moves[|moves| - 1], aggregate);
      assert moves[..|moves| - 1] + [moves[|moves| - 1]] == moves;
    }
  }

  /** In every run of racing, stale, cancelled, raising and rolled-back calls, each aggregate's
      committed moves are an unbroken legal path from its birth to its live status, and its audit
      rows replay to that status if and only if its lost moves cancel: every block of them ends
      in the status in which it began. */
  lemma AuditReplaysIff(steps: seq<Step>, aggregate: Aggregate)
    requires Runnable(EMPTY, steps) && aggregate in After(EMPTY, steps).live
    ensures var db := After(EMPTY, steps);
      && aggregate in db.born && LegalBirth(aggregate, db.born[aggregate])
      && Explains(db.born[aggregate], Rows(db.history), aggregate, db.live[aggregate])
      && (Explains(db.born[aggregate], Log(db), aggregate, db.live[aggregate])
          <==> LostMovesCancel(Own(db.history, aggregate)))
  {
    RunKeepsTracked(EMPTY, steps);
    hide Runnable, After, Replay, Unbroken, LostMovesCancel;
    var db := After(EMPTY, steps);
    OthersDoNotMatter(db.born[aggregate], Rows(db.history), aggregate);
    OthersDoNotMatter(db.born[aggregate], Log(db), aggregate);
    OwnCommutes(db.history, aggregate);
    OwnReplayIff(db.born[aggregate], Own(db.history, aggregate), aggregate);
  }

  // ---------------------------------------------------------------------------
  // Who may move what
  // ---------------------------------------------------------------------------

  /** The move is its call's, along the table; a session call was not stopped by a requested
      cancel, and a task-log call had read the status that it moves from. */
  predicate Authorised(m: Move) {
    && m.row.before == m.call.before && m.row.after == m.call.after
    && m.row.reason == m.call.reason && m.row.source == m.call.source
    && (m.recorded <==> m.call.source != "")
    && match m.call {
         case SessionCall(id, before, after, _, _, driver, force) =>
           && m.row.aggregate == VideoSession(id) && (before, after) in SESSION_ALLOWED_TRANSITIONS
           && (force || driver.None? || !driver.value.cancelRequested)
           && m.row.taskLogId == (if driver.Some? then Some(driver.value.taskLogId) else None)
         case TaskCall(id, before, after, _, _, firstRead) =>
           && m.row.aggregate == TaskLog(id) && (before, after) in TASK_LOG_ALLOWED_TRANSITIONS
           && firstRead == Some(before) && m.row.taskLogId == Some(id)
       }
  }

  predicate AllAuthorised(moves: seq<Move>) {
    forall i :: 0 <= i < |moves| ==> Authorised(moves[i])
  }

  predicate OnlyAuthorised(db: Db) {
    AllAuthorised(db.history) && forall t :: t in db.open ==> AllAuthorised(db.open[t].moves)
  }

  lemma StepKeepsAuthorised(db: Db, step: Step)
    requires OnlyAuthorised(db) && Enabled(db, step)
    ensures OnlyAuthorised(Apply(db, step))
  {
  }

  lemma {:induction false} RunKeepsAuthorised(db: Db, steps: seq<Step>)
    requires OnlyAuthorised(db) && Runnable(db, steps)
    ensures OnlyAuthorised(After(db, steps))
    decreases |steps|
  {
    hide OnlyAuthorised, Enabled, Apply;
    if steps != [] {
      StepKeepsAuthorised(db, steps[0]);
      RunKeepsAuthorised(Apply(db, steps[0]), steps[1..]);
    }
  }

  /** In every run no session moves by an unforced call with a requested cancel, no task log by a
      call that had read another status, and nothing off the tables. */
  lemma EveryMoveIsAuthorised(steps: seq<Step>)
    requires Runnable(EMPTY, steps)
    ensures AllAuthorised(After(EMPTY, steps).history)
  {
    RunKeepsAuthorised(EMPTY, steps);
  }

  // ---------------------------------------------------------------------------
  // Whole commits
  // ---------------------------------------------------------------------------

  predicate Whole(moves: seq<Move>) {
    forall i :: 0 <= i < |moves| ==> moves[i].recorded
  }

  /** A caller that lets an exception end its transaction commits no lost move. */
  predicate CommitsWhole(db: Db, steps: seq<Step>)
    requires Runnable(db, steps)
    decreases |steps|
  {
    steps == [] || (
      && (steps[0].Commit? ==> Whole(db.open[steps[0].t].moves))
      && CommitsWhole(Apply(db, steps[0]), steps[1..]))
  }

  lemma {:induction false} HistoryStaysWhole(db: Db, steps: seq<Step>)
    requires Runnable(db, steps) && CommitsWhole(db, steps) && Whole(db.history)
    ensures Whole(After(db, steps).history)
    decreases |steps|
  {
    if steps != [] {
      HistoryStaysWhole(Apply(db, steps[0]), steps[1..]);
    }
  }

  lemma {:induction false} WholeLog(moves: seq<Move>)
    requires Whole(moves)
    ensures Recorded(moves) == Rows(moves)
  {
    if moves != [] {
      WholeLog(moves[..|moves| - 1]);
    }
  }

  /** If every commit is whole, the audit log is the history, and every aggregate's rows are an
      unbroken legal path from its birth to its live status. */
  lemma AuditReplays(steps: seq<Step>, aggregate: Aggregate)
    requires Runnable(EMPTY, steps) && CommitsWhole(EMPTY, steps) && aggregate in After(EMPTY, steps).live
    ensures var db := After(EMPTY, steps);
      && Log(db) == Rows(db.history)
      && aggregate in db.born && LegalBirth(aggregate, db.born[aggregate])
      && Unbroken(db.born[aggregate], Log(db), aggregate)
      && Replay(db.born[aggregate], Log(db), aggregate) == db.live[aggregate]
  {
    HistoryStaysWhole(EMPTY, steps);
    WholeLog(After(EMPTY, steps).history);
    AuditReplaysIff(steps, aggregate);
  }

  /** The status an aggregate is created in is the one its history starts from, for good. */
  lemma {:induction false} BirthIsKept(db: Db, steps: seq<Step>, aggregate: Aggregate)
    requires Tracked(db) && Runnable(db, steps) && aggregate in db.born
    ensures aggregate in After(db, steps).born && After(db, steps).born[aggregate] == db.born[aggregate]
    decreases |steps|
  {
    if steps != [] {
      StepKeepsTracked(db, steps[0]);
      BirthIsKept(Apply(db, steps[0]), steps[1..], aggregate);
    }
  }

  /** The caller's rollback is needed: a transaction that is committed after an empty source has
      raised in it leaves a live status that the audit does not explain. */
  lemma TornCommitBreaksReplay() returns (call: Call, steps: seq<Step>)
    ensures Reply(map[VideoSession(1) := Open], call) == Err(SourceRequired)
    ensures steps == [Create(VideoSession(1), Open), Begin(0), Do(0, call), Commit(0)]
    ensures Runnable(EMPTY, steps)
    ensures var db := After(EMPTY, steps);
      && db.born == map[VideoSession(1) := Open] && db.live == map[VideoSession(1) := Sealed]
      && Log(db) == [] && !Explains(Open, Log(db), VideoSession(1), Sealed)
  {
    var a := VideoSession(1);
    call := SessionCall(1, Open, Sealed, "", "", None, false);
    var created := Db(map[a := Open], map[a := Open], [], map[]);
    var torn := Tx(map[a := Sealed], [Move(RowOf(call), call, false)]);
    var end := Db(map[a := Open], map[a := Sealed], torn.moves, map[]);
    assert Apply(EMPTY, Create(a, Open)) == created;
    assert Seen(created.(open := map[0 := Tx(map[], [])]), 0) == map[a := Open];
    assert Wins(map[a := Open], call);
    assert AfterCall(Tx(map[], []), map[a := Open], call) == torn;
    assert Apply(created.(open := map[0 := torn]), Commit(0)) == end;
    StepsRun(created.(open := map[0 := torn]), Commit(0), []);
    StepsRun(created.(open := map[0 := Tx(map[], [])]), Do(0, call), [Commit(0)]);
    StepsRun(created, Begin(0), [Do(0, call), Commit(0)]);
    StepsRun(EMPTY, Create(a, Open), [Begin(0), Do(0, call), Commit(0)]);
    steps := [Create(a, Open), Begin(0), Do(0, call), Commit(0)];
    assert Recorded(end.history) == [];
  }

  lemma StepsRun(db: Db, step: Step, rest: seq<Step>)
    requires Enabled(db, step) && Runnable(Apply(db, step), rest)
    ensures Runnable(db, [step] + rest) && After(db, [step] + rest) == After(Apply(db, step), rest)
  {
  }

  // ---------------------------------------------------------------------------
  // The shape of a history
  // ---------------------------------------------------------------------------

  function Entries(log: seq<AuditRow>, aggregate: Aggregate, status: Status): nat {
    if log == [] then 0
    else
      var last := log[|log| - 1];
      Entries(log[..|log| - 1], aggregate, status)
      + if last.aggregate == aggregate && last.after == status then 1 else 0
  }

  function Exits(log: seq<AuditRow>, aggregate: Aggregate, status: Status): nat {
    if log == [] then 0
    else
      var last := log[|log| - 1];
      Exits(log[..|log| - 1], aggregate, status)
      + if last.aggregate == aggregate && last.before == status then 1 else 0
  }

  function Moves(log: seq<AuditRow>, aggregate: Aggregate): nat {
    if log == [] then 0
    else Moves(log[..|log| - 1], aggregate) + if log[|log| - 1].aggregate == aggregate then 1 else 0
  }

  function One(b: bool): int {
    if b then 1 else 0
  }

  /** Entering and leaving a status balance up to where the history starts and ends. */
  lemma {:induction false} EntriesMinusExits(start: Status, log: seq<AuditRow>, aggregate: Aggregate, status: Status)
    requires Unbroken(start, log, aggregate)
    ensures Entries(log, aggregate, status) - Exits(log, aggregate, status)
         == One(Replay(start, log, aggregate) == status) - One(start == status)
  {
    if log != [] {
      EntriesMinusExits(start, log[..|log| - 1], aggregate, status);
      AllowedFacts();
    }
  }

  lemma AllowedFacts()
    ensures forall a, x, y :: Allowed(a, x, y) ==> x != y
    ensures forall a, x, y :: Allowed(a, x, y) && a.VideoSession? ==> y != Open && (y == Success ==> x == Analyzing)
    ensures forall a, x, y :: Allowed(a, x, y) && a.TaskLog? ==> Rank(x) < Rank(y)
    ensures forall a, x, y :: Allowed(a, x, y) && a.VideoSession? ==> ToSuccess(x) <= ToSuccess(y) + 1
  {
  }

  /** How far a task log has come. */
  function Rank(status: Status): nat {
    match status
    case Pending => 0
    case Running => 1
    case _ => 2
  }

  /** A session never re-enters `Open`, and every success uses up an analysis of its own. */
  lemma {:induction false} SessionHistory(start: Status, log: seq<AuditRow>, id: int)
    requires Unbroken(start, log, VideoSession(id))
    ensures Entries(log, VideoSession(id), Open) == 0
    ensures Entries(log, VideoSession(id), Success) <= Exits(log, VideoSession(id), Analyzing)
  {
    if log != [] {
      SessionHistory(start, log[..|log| - 1], id);
      AllowedFacts();
    }
  }

  lemma {:induction false} TaskMovesClimb(start: Status, log: seq<AuditRow>, id: int)
    requires Unbroken(start, log, TaskLog(id))
    ensures Rank(start) + Moves(log, TaskLog(id)) <= Rank(Replay(start, log, TaskLog(id)))
  {
    if log != [] {
      TaskMovesClimb(start, log[..|log| - 1], id);
      AllowedFacts();
    }
  }

  /** In every run, by the moves it has committed, recorded or not: a task log moves at most twice,
      and not at all if it was created in a terminal status; a session is analysed once more than
      it has left analysis exactly while it is being analysed, is never open again, and has not
      succeeded more often than it was analysed. */
  lemma HistoriesOfEveryRun(steps: seq<Step>, id: int)
    requires Runnable(EMPTY, steps)
    ensures var db, session, task := After(EMPTY, steps), VideoSession(id), TaskLog(id);
      var moves := Rows(db.history);
      && (task in db.live ==> task in db.born && Moves(moves, task) <= 2 - Rank(db.born[task]))
      && (session in db.live ==>
            && Entries(moves, session, Analyzing) - Exits(moves, session, Analyzing)
                 == (if db.live[session] == Analyzing then 1 else 0)
            && Entries(moves, session, Open) == 0
            && Entries(moves, session, Success) <= Entries(moves, session, Analyzing))
  {
    var db := After(EMPTY, steps);
    if TaskLog(id) in db.live {
      AuditReplaysIff(steps, TaskLog(id));
      TaskMovesClimb(db.born[TaskLog(id)], Rows(db.history), id);
    }
    if VideoSession(id) in db.live {
      AuditReplaysIff(steps, VideoSession(id));
      EntriesMinusExits(Open, Rows(db.history), VideoSession(id), Analyzing);
      SessionHistory(Open, Rows(db.history), id);
    }
  }

  // ---------------------------------------------------------------------------
  // Success stays reachable
  // ---------------------------------------------------------------------------

  predicate IsSessionStatus(status: Status) {
    status in {Open, Sealed, Analyzing, Partial, Success, Failed}
  }

  /** The least number of moves from a session status to `Success`. */
  function ToSuccess(status: Status): nat {
    match status
    case Success => 0
    case Analyzing => 1
    case Sealed => 2
    case Partial => 2
    case _ => 3
  }

  function NextTowardsSuccess(status: Status): Status {
    match status
    case Analyzing => Success
    case Sealed => Analyzing
    case Partial => Analyzing
    case _ => Sealed
  }

  /** From every session status there is a legal history that ends in `Success` ... */
  lemma {:induction false} SuccessReachable(start: Status, id: int) returns (log: seq<AuditRow>)
    requires IsSessionStatus(start)
    ensures Explains(start, log, VideoSession(id), Success)
    ensures |log| == ToSuccess(start)
    decreases ToSuccess(start)
  {
    if start == Success {
      log := [];
    } else {
      hide Unbroken, Replay;
      var next := NextTowardsSuccess(start);
      var rest := SuccessReachable(next, id);
      var first := [AuditRow(VideoSession(id), start, next, "", "runner", None)];
      SilentLogExplainsStay(start, [], VideoSession(id));
      RowExtends(start, [], first[0], VideoSession(id), start);
      assert [] + first == first;
      ExplanationsCompose(start, first, next, rest, Success, VideoSession(id));
      log := first + rest;
    }
  }

  /** ... and none is shorter. */
  lemma {:induction false} SuccessDistance(start: Status, log: seq<AuditRow>, id: int)
    requires Unbroken(start, log, VideoSession(id))
    ensures ToSuccess(start) <= Moves(log, VideoSession(id)) + ToSuccess(Replay(start, log, VideoSession(id)))
  {
    if log != [] {
      SuccessDistance(start, log[..|log| - 1], id);
      AllowedFacts();
    }
  }
}
