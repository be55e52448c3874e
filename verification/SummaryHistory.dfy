/** Runs of any number of workers over the daily-summary attempts. A worker first reads the next
    attempt number and inserts later; other workers may act in between. */
module SummaryHistory {
  import opened Outcomes
  import opened SummaryAttempts

  datatype Reading = Reading(date: int, number: int)

  datatype State = State(rows: Table, nextId: nat, readings: map<string, Reading>)

  datatype Step =
    | Read(worker: string, date: int, number: int)
    | Insert(worker: string)
    | Apply(id: nat, mark: Mark, now: int)

  const EMPTY := State(map[], 0, map[])

  ghost predicate Enabled(s: State, step: Step) {
    match step
    case Read(_, date, number) => IsNextNumber(s.rows, date, number)
    case Insert(worker) => worker in s.readings
    case Apply(_, _, _) => true
  }

  /** The insert finds the slot of its date free. */
  ghost predicate Inserts(s: State, step: Step) {
    step.Insert? && step.worker in s.readings && !HasActive(s.rows, s.readings[step.worker].date)
  }

  /** `ON CONFLICT DO NOTHING`: an insert against a taken slot changes nothing. */
  ghost function Next(s: State, step: Step): State
    requires Enabled(s, step)
  {
    match step
    case Read(worker, date, number) => s.(readings := s.readings[worker := Reading(date, number)])
    case Insert(worker) =>
      if !Inserts(s, step) then s
      else
        var r := s.readings[worker];
        State(s.rows[s.nextId := NewAttempt(r.date, r.number)], s.nextId + 1, s.readings - {worker})
    case Apply(id, mark, now) => s.(rows := Marked(s.rows, id, mark, now))
  }

  ghost predicate Runnable(s: State, steps: seq<Step>)
    decreases |steps|
  {
    steps == [] || (Enabled(s, steps[0]) && Runnable(Next(s, steps[0]), steps[1..]))
  }

  ghost function After(s: State, steps: seq<Step>): State
    requires Runnable(s, steps)
    decreases |steps|
  {
    if steps == [] then s else After(Next(s, steps[0]), steps[1..])
  }

  // ---------------------------------------------------------------------------
  // What always holds
  // ---------------------------------------------------------------------------

  predicate RowOk(a: Attempt) {
    && a.number >= 1
    && (a.finishedAt.Some? <==> a.status in TERMINAL_STATUSES)
    && (a.status == Cancelled ==> a.diagnostics.failureReason == Some("cancelled"))
    && (a.status == TimedOut ==> a.diagnostics.failureReason == Some("timeout"))
    && (a.status !in {Failed, Cancelled, TimedOut} ==> a.diagnostics == NO_DIAGNOSTICS)
  }

  ghost predicate OneActive(t: Table) {
    forall i, j :: i in t && j in t && i != j && t[i].status in ACTIVE_STATUSES && t[j].status in ACTIVE_STATUSES ==>
      t[i].date != t[j].date
  }

  ghost predicate HasNumber(t: Table, date: int, number: int) {
    exists id :: id in t && t[id].date == date && t[id].number == number
  }

  ghost predicate NoGaps(t: Table) {
    forall id :: id in t && t[id].number > 1 ==> HasNumber(t, t[id].date, t[id].number - 1)
  }

  ghost predicate ReadingsOk(t: Table, readings: map<string, Reading>) {
    forall w :: w in readings ==>
      readings[w].number >= 1 && (readings[w].number == 1 || HasNumber(t, readings[w].date, readings[w].number - 1))
  }

  ghost predicate Inv(s: State) {
    && (forall id :: id in s.rows ==> id < s.nextId && RowOk(s.rows[id]))
    && OneActive(s.rows)
    && NoGaps(s.rows)
    && ReadingsOk(s.rows, s.readings)
  }

  /** Changing the rest of the rows never loses a number. */
  lemma NumbersStay(t: Table, t': Table)
    requires forall id :: id in t ==> id in t' && t'[id].date == t[id].date && t'[id].number == t[id].number
    ensures forall date, number :: HasNumber(t, date, number) ==> HasNumber(t', date, number)
  {
  }

  lemma InsertKeepsInv(s: State, worker: string)
    requires Inv(s) && Inserts(s, Insert(worker))
    ensures Inv(Next(s, Insert(worker)))
  {
    hide RowOk, HasNumber;
    var s' := Next(s, Insert(worker));
    NumbersStay(s.rows, s'.rows);
    assert s'.rows[s.nextId].date == s.readings[worker].date;
    NewRowOk(s.readings[worker].date, s.readings[worker].number);
  }

  lemma NewRowOk(date: int, number: int)
    requires number >= 1
    ensures RowOk(NewAttempt(date, number))
  {
  }

  lemma ApplyKeepsInv(s: State, id: nat, mark: Mark, now: int)
    requires Inv(s)
    ensures Inv(Next(s, Apply(id, mark, now)))
  {
    hide RowOk, HasNumber, MarkedRow, AllowedSourcesFor;
    var s' := Next(s, Apply(id, mark, now));
    if Applies(s.rows, id, mark) {
      MarkedRowFits(s.rows[id], mark, now);
      NumbersStay(s.rows, s'.rows);
    }
  }

  lemma MarkedRowFits(a: Attempt, mark: Mark, now: int)
    requires RowOk(a) && a.status in AllowedSourcesFor(TargetOf(mark))
    ensures var m := MarkedRow(a, mark, now);
      RowOk(m) && m.date == a.date && m.number == a.number && a.status in ACTIVE_STATUSES
  {
  }

  lemma StepKeepsInv(s: State, step: Step)
    requires Inv(s) && Enabled(s, step)
    ensures Inv(Next(s, step))
  {
    match step {
      case Insert(worker) =>
        if Inserts(s, step) {
          InsertKeepsInv(s, worker);
        }
      case Apply(id, mark, now) => ApplyKeepsInv(s, id, mark, now);
      case Read(_, _, _) =>
    }
  }

  /** In every run: one active attempt per date at most, consistent diagnostics, and numbers
      that start at 1 and leave no gap. */
  lemma {:induction false} RunKeepsInv(s: State, steps: seq<Step>)
    requires Inv(s) && Runnable(s, steps)
    ensures Inv(After(s, steps))
    decreases |steps|
  {
    hide Inv, Enabled, Next;
    if steps != [] {
      StepKeepsInv(s, steps[0]);
      RunKeepsInv(Next(s, steps[0]), steps[1..]);
    }
  }

  predicate Exceeds(t: Table, date: int, n: int) {
    n >= 1 && forall id :: id in t && t[id].date == date ==> t[id].number < n
  }

  /** The number that a worker reads is the least positive one above all numbers of the date. */
  lemma ReadingIsLeast(s: State, date: int, n: int)
    requires Inv(s)
    ensures IsNextNumber(s.rows, date, n) <==>
      Exceeds(s.rows, date, n) && forall m :: Exceeds(s.rows, date, m) ==> n <= m
  {
    if Exceeds(s.rows, date, n) && n > 1 && forall m :: Exceeds(s.rows, date, m) ==> n <= m {
      assert !Exceeds(s.rows, date, n - 1);
      var id :| id in s.rows && s.rows[id].date == date && s.rows[id].number >= n - 1;
    }
    if IsNextNumber(s.rows, date, n) {
      forall m | Exceeds(s.rows, date, m)
        ensures n <= m
      {
        assert n == 1 || HasNumber(s.rows, date, n - 1);
      }
    }
  }

  /** An insert adds a claimed attempt with the number read exactly if no attempt of its date is
      claimed, queued or running; else it changes nothing. */
  lemma InsertDecides(s: State, worker: string)
    requires worker in s.readings
    ensures var r, s' := s.readings[worker], Next(s, Insert(worker));
      if exists id :: id in s.rows && s.rows[id].date == r.date
           && (s.rows[id].status == Claimed || s.rows[id].status == Queued || s.rows[id].status == Running)
      then s' == s
      else s'.rows == s.rows[s.nextId := Attempt(r.date, r.number, Claimed, Diagnostics(None, None, None), None, None, None)]
           && s'.nextId == s.nextId + 1 && s'.readings == s.readings - {worker}
  {
  }

  // ---------------------------------------------------------------------------
  // A row's own history
  // ---------------------------------------------------------------------------

  function RankAt(t: Table, id: nat): nat {
    if id in t then Rank(t[id].status) else 0
  }

  /** How often the status of row `id` changes along a run. */
  ghost function MovesOf(s: State, steps: seq<Step>, id: nat): nat
    requires Runnable(s, steps)
    decreases |steps|
  {
    if steps == [] then 0
    else
      (if steps[0].Apply? && steps[0].id == id && Applies(s.rows, id, steps[0].mark) then 1 else 0)
      + MovesOf(Next(s, steps[0]), steps[1..], id)
  }

  lemma StepClimbs(s: State, step: Step, id: nat)
    requires Inv(s) && Enabled(s, step)
    ensures var s' := Next(s, step); var moves := step.Apply? && step.id == id && Applies(s.rows, id, step.mark);
      && RankAt(s.rows, id) + (if moves then 1 else 0) <= RankAt(s'.rows, id)
      && (id in s.rows && s.rows[id].status in TERMINAL_STATUSES ==> id in s'.rows && s'.rows[id] == s.rows[id])
  {
    if step.Apply? && Applies(s.rows, step.id, step.mark) {
      SourcesFollowTable(s.rows[step.id].status, TargetOf(step.mark));
    }
  }

  /** The row shows which mark ended it, when, and with what the caller said about it. */
  predicate EndedBy(a: Attempt, mark: Mark, now: int) {
    && a.finishedAt == Some(now)
    && match mark
       case Succeed => a.status == Succeeded && a.diagnostics == Diagnostics(None, None, None)
       case Fail(errorType, lastError, reason) =>
         a.status == Failed && a.diagnostics == Diagnostics(Some(errorType), Some(lastError), Some(reason))
       case Cancel(lastError) =>
         a.status == Cancelled && a.diagnostics == Diagnostics(None, Some(lastError), Some("cancelled"))
       case TimeOut(lastError) =>
         a.status == TimedOut && a.diagnostics == Diagnostics(None, Some(lastError), Some("timeout"))
       case Supersede => a.status == Superseded && a.diagnostics == Diagnostics(None, None, None)
       case _ => false
  }

  predicate HasEnded(s: State, id: nat) {
    id in s.rows && s.rows[id].status in {Succeeded, Failed, Cancelled, TimedOut, Superseded}
  }

  lemma StepEnds(s: State, step: Step, id: nat)
    requires Inv(s) && Enabled(s, step) && !HasEnded(s, id) && HasEnded(Next(s, step), id)
    ensures step.Apply? && step.id == id && EndedBy(Next(s, step).rows[id], step.mark, step.now)
  {
  }

  /** In every run: an attempt that has ended was ended by one mark, and shows it for good. */
  lemma {:induction false} EveryEndIsAMark(s: State, steps: seq<Step>, id: nat) returns (k: nat)
    requires Inv(s) && Runnable(s, steps) && !HasEnded(s, id) && HasEnded(After(s, steps), id)
    ensures k < |steps| && steps[k].Apply? && steps[k].id == id
    ensures EndedBy(After(s, steps).rows[id], steps[k].mark, steps[k].now)
    decreases |steps|
  {
    hide Inv, Enabled, Next, EndedBy;
    var next := Next(s, steps[0]);
    StepKeepsInv(s, steps[0]);
    if HasEnded(next, id) {
      StepEnds(s, steps[0], id);
      AttemptsEnd(next, steps[1..], id);
      k := 0;
    } else {
      k := EveryEndIsAMark(next, steps[1..], id);
      k := k + 1;
    }
  }

  /** No attempt takes more than three status changes, and a terminal row never changes again. */
  lemma {:induction false} AttemptsEnd(s: State, steps: seq<Step>, id: nat)
    requires Inv(s) && Runnable(s, steps)
    ensures RankAt(s.rows, id) + MovesOf(s, steps, id) <= RankAt(After(s, steps).rows, id) <= 3
    ensures id in s.rows && s.rows[id].status in TERMINAL_STATUSES ==>
      id in After(s, steps).rows && After(s, steps).rows[id] == s.rows[id]
    decreases |steps|
  {
    hide Inv, Enabled, Next, Applies;
    if steps != [] {
      StepKeepsInv(s, steps[0]);
      StepClimbs(s, steps[0], id);
      AttemptsEnd(Next(s, steps[0]), steps[1..], id);
    }
  }

  // ---------------------------------------------------------------------------
  // The numbering of a date
  // ---------------------------------------------------------------------------

  ghost predicate Distinct(t: Table) {
    forall i, j :: i in t && j in t && i != j && t[i].date == t[j].date ==> t[i].number != t[j].number
  }

  /** If the step inserts, the number it was given is still the next one. */
  ghost predicate Fresh(s: State, step: Step) {
    Inserts(s, step) ==>
      var r := s.readings[step.worker];
      forall id :: id in s.rows && s.rows[id].date == r.date ==> s.rows[id].number < r.number
  }

  /** No attempt number between 1 and one that exists is missing. */
  lemma {:induction false} NumbersBelowExist(t: Table, date: int, high: int, n: int)
    requires NoGaps(t) && HasNumber(t, date, high) && 1 <= n <= high
    ensures HasNumber(t, date, n)
    decreases high - n
  {
    if n < high {
      NumbersBelowExist(t, date, high, n + 1);
      var id :| id in t && t[id].date == date && t[id].number == n + 1;
      assert HasNumber(t, t[id].date, t[id].number - 1);
    }
  }

  /** A number that is not the next one is already taken. */
  lemma StaleNumberIsTaken(t: Table, date: int, n: int, id: nat)
    requires NoGaps(t) && n >= 1 && id in t && t[id].date == date && t[id].number >= n
    ensures HasNumber(t, date, n)
  {
    NumbersBelowExist(t, date, t[id].number, n);
  }

  lemma StepKeepsDistinctIffFresh(s: State, step: Step)
    requires Inv(s) && Enabled(s, step)
    ensures Distinct(Next(s, step).rows) <==> Distinct(s.rows) && Fresh(s, step)
  {
    var s' := Next(s, step);
    if Inserts(s, step) {
      var r := s.readings[step.worker];
      assert s'.rows[s.nextId] == NewAttempt(r.date, r.number) && s.nextId !in s.rows;
      if !Fresh(s, step) {
        var id :| id in s.rows && s.rows[id].date == r.date && s.rows[id].number >= r.number;
        StaleNumberIsTaken(s.rows, r.date, r.number, id);
        var twin :| twin in s.rows && s.rows[twin].date == r.date && s.rows[twin].number == r.number;
        assert s'.rows[twin] == s.rows[twin] && twin != s.nextId;
      } else {
        OldRowsStay(s, step);
      }
    } else {
      OldRowsStay(s, step);
    }
  }

  lemma OldRowsStay(s: State, step: Step)
    requires Inv(s) && Enabled(s, step)
    ensures forall id :: id in s.rows ==> id in Next(s, step).rows
    ensures forall id :: id in s.rows ==>
      Next(s, step).rows[id].date == s.rows[id].date && Next(s, step).rows[id].number == s.rows[id].number
  {
  }

  ghost predicate AllFresh(s: State, steps: seq<Step>)
    requires Runnable(s, steps)
    decreases |steps|
  {
    steps == [] || (Fresh(s, steps[0]) && AllFresh(Next(s, steps[0]), steps[1..]))
  }

  /** The attempt numbers of every date are distinct exactly when every insert still used the
      next number. */
  lemma {:induction false} DistinctIffAllFresh(s: State, steps: seq<Step>)
    requires Inv(s) && Runnable(s, steps)
    ensures Distinct(After(s, steps).rows) <==> Distinct(s.rows) && AllFresh(s, steps)
    decreases |steps|
  {
    hide Inv, Enabled, Next, Distinct, Fresh;
    if steps != [] {
      StepKeepsInv(s, steps[0]);
      StepKeepsDistinctIffFresh(s, steps[0]);
      DistinctIffAllFresh(Next(s, steps[0]), steps[1..]);
    }
  }

  // ---------------------------------------------------------------------------
  // What a caller can arrange
  // ---------------------------------------------------------------------------

  /** The workers since whose last read another attempt of their date has been inserted, after
      one more step. */
  ghost function Disturbed(s: State, step: Step, disturbed: set<string>): set<string>
    requires Enabled(s, step)
  {
    if step.Read? then disturbed - {step.worker}
    else if Inserts(s, step) then
      disturbed + (set w | w in s.readings.Keys && w != step.worker
                        && s.readings[w].date == s.readings[step.worker].date)
    else disturbed
  }

  /** No insert of the run comes after another insert of its date since its worker's read. */
  ghost predicate Undisturbed(s: State, steps: seq<Step>, disturbed: set<string>)
    requires Runnable(s, steps)
    decreases |steps|
  {
    steps == [] ||
    (!(Inserts(s, steps[0]) && steps[0].worker in disturbed)
     && Undisturbed(Next(s, steps[0]), steps[1..], Disturbed(s, steps[0], disturbed)))
  }

  /** A reading is stale exactly when its worker has been disturbed. */
  ghost predicate Tracks(s: State, disturbed: set<string>) {
    forall w :: w in s.readings ==> (w in disturbed <==> !StillNext(s, w))
  }

  ghost predicate StillNext(s: State, w: string)
    requires w in s.readings
  {
    forall id :: id in s.rows && s.rows[id].date == s.readings[w].date ==> s.rows[id].number < s.readings[w].number
  }

  lemma FreshIffNotDisturbed(s: State, step: Step, disturbed: set<string>)
    requires Tracks(s, disturbed)
    ensures Fresh(s, step) <==> !(Inserts(s, step) && step.worker in disturbed)
  {
  }

  lemma StepKeepsTracks(s: State, step: Step, disturbed: set<string>)
    requires Inv(s) && Enabled(s, step) && Tracks(s, disturbed) && Fresh(s, step)
    ensures Tracks(Next(s, step), Disturbed(s, step, disturbed))
  {
    var s' := Next(s, step);
    forall w | w in s'.readings
      ensures w in Disturbed(s, step, disturbed) <==> !StillNext(s', w)
    {
      if Inserts(s, step) {
        InsertDisturbs(s, step.worker, w);
      } else if step.Apply? {
        OldRowsStay(s, step);
      }
    }
  }

  /** A fresh insert makes every other reading of its date stale, and no reading of another. */
  lemma InsertDisturbs(s: State, worker: string, w: string)
    requires Inv(s) && Inserts(s, Insert(worker)) && Fresh(s, Insert(worker)) && w in s.readings && w != worker
    ensures var s' := Next(s, Insert(worker));
      && w in s'.readings
      && (StillNext(s', w) <==> StillNext(s, w) && s.readings[w].date != s.readings[worker].date)
  {
    var s' := Next(s, Insert(worker));
    var mine, theirs := s.readings[worker], s.readings[w];
    assert s'.rows[s.nextId] == NewAttempt(mine.date, mine.number);
    assert forall id :: id in s.rows ==> s'.rows[id] == s.rows[id];
  }

  lemma {:induction false} FreshIffUndisturbed(s: State, steps: seq<Step>, disturbed: set<string>)
    requires Inv(s) && Runnable(s, steps) && Tracks(s, disturbed)
    ensures AllFresh(s, steps) <==> Undisturbed(s, steps, disturbed)
    decreases |steps|
  {
    hide Inv, Enabled, Next, Fresh, Tracks, Disturbed, Inserts;
    if steps != [] {
      FreshIffNotDisturbed(s, steps[0], disturbed);
      if Fresh(s, steps[0]) {
        StepKeepsInv(s, steps[0]);
        StepKeepsTracks(s, steps[0], disturbed);
        FreshIffUndisturbed(Next(s, steps[0]), steps[1..], Disturbed(s, steps[0], disturbed));
      }
    }
  }

  /** In every run the attempt numbers of each date are distinct exactly when no other attempt of
      the date is inserted between a worker's read and its insert. */
  lemma DistinctIffUndisturbed(steps: seq<Step>)
    requires Runnable(EMPTY, steps)
    ensures Distinct(After(EMPTY, steps).rows) <==> Undisturbed(EMPTY, steps, {})
  {
    DistinctIffAllFresh(EMPTY, steps);
    FreshIffUndisturbed(EMPTY, steps, {});
    hide AllFresh, Undisturbed, After;
  }

  /** Nobody reads a number of a date for which somebody else still holds one. */
  ghost predicate OneReaderPerDate(s: State, steps: seq<Step>)
    requires Runnable(s, steps)
    decreases |steps|
  {
    steps == [] ||
    ((steps[0].Read? ==>
        forall w :: w in s.readings && w != steps[0].worker ==> s.readings[w].date != steps[0].date)
     && OneReaderPerDate(Next(s, steps[0]), steps[1..]))
  }

  ghost predicate DistinctDates(readings: map<string, Reading>) {
    forall v, w :: v in readings && w in readings && v != w ==> readings[v].date != readings[w].date
  }

  lemma {:induction false} OneReaderIsUndisturbed(s: State, steps: seq<Step>)
    requires Runnable(s, steps) && DistinctDates(s.readings) && OneReaderPerDate(s, steps)
    ensures Undisturbed(s, steps, {})
    decreases |steps|
  {
    if steps != [] {
      assert Disturbed(s, steps[0], {}) == {};
      OneReaderIsUndisturbed(Next(s, steps[0]), steps[1..]);
    }
  }

  /** A lock per date from the read to the insert is enough. */
  lemma LockPerDateKeepsNumbersDistinct(steps: seq<Step>)
    requires Runnable(EMPTY, steps) && OneReaderPerDate(EMPTY, steps)
    ensures Distinct(After(EMPTY, steps).rows)
  {
    OneReaderIsUndisturbed(EMPTY, steps);
    DistinctIffUndisturbed(steps);
  }

  ghost function IdsOf(t: Table, date: int): set<nat> {
    set id | id in t.Keys && t[id].date == date
  }

  /** Every run numbers the attempts of a date 1, 2, ..., k without a gap, and k is the number
      of its attempts when no insert used a stale number. */
  lemma NumberingOfEveryRun(steps: seq<Step>, date: int) returns (k: nat)
    requires Runnable(EMPTY, steps)
    ensures var t := After(EMPTY, steps).rows;
      && (forall n :: HasNumber(t, date, n) <==> 1 <= n <= k)
      && (AllFresh(EMPTY, steps) ==> k == |IdsOf(t, date)|)
  {
    RunKeepsInv(EMPTY, steps);
    DistinctIffAllFresh(EMPTY, steps);
    hide OneActive, ReadingsOk, After, AllFresh, RowOk;
    k := NumbersFill(After(EMPTY, steps).rows, date);
  }

  lemma NumbersFill(t: Table, date: int) returns (k: nat)
    requires NoGaps(t) && forall id :: id in t ==> RowOk(t[id])
    ensures forall n :: HasNumber(t, date, n) <==> 1 <= n <= k
    ensures Distinct(t) ==> k == |IdsOf(t, date)|
  {
    k := HighestNumber(t, date, IdsOf(t, date));
    forall n | 1 <= n <= k
      ensures HasNumber(t, date, n)
    {
      NumbersBelowExist(t, date, k, n);
    }
    forall n | HasNumber(t, date, n)
      ensures 1 <= n <= k && Carries(t, IdsOf(t, date), n)
    {
      var id :| id in t && t[id].date == date && t[id].number == n;
      assert id in IdsOf(t, date) && RowOk(t[id]);
    }
    if Distinct(t) {
      CountByNumber(t, date, IdsOf(t, date), k);
    }
  }

  predicate Carries(t: Table, ids: set<nat>, n: int) {
    exists id :: id in ids && id in t && t[id].number == n
  }

  lemma {:induction false} HighestNumber(t: Table, date: int, ids: set<nat>) returns (k: nat)
    requires ids <= IdsOf(t, date) && forall id :: id in t ==> RowOk(t[id])
    ensures forall id :: id in ids ==> t[id].number <= k
    ensures k == 0 || HasNumber(t, date, k)
    decreases ids
  {
    if ids == {} {
      k := 0;
    } else {
      var id :| id in ids;
      var rest := HighestNumber(t, date, ids - {id});
      assert id in IdsOf(t, date) && RowOk(t[id]);
      k := if rest < t[id].number then t[id].number else rest;
    }
  }

  /** Distinct numbers that fill 1..k belong to k rows. */
  lemma {:induction false} CountByNumber(t: Table, date: int, ids: set<nat>, k: nat)
    requires Distinct(t) && ids <= IdsOf(t, date)
    requires forall id :: id in ids ==> 1 <= t[id].number <= k
    requires forall n :: 1 <= n <= k ==> Carries(t, ids, n)
    ensures |ids| == k
    decreases k
  {
    if k == 0 {
      assert ids == {};
    } else {
      assert Carries(t, ids, k);
      var top :| top in ids && t[top].number == k;
      forall id | id in ids && id != top
        ensures t[id].number != k
      {
        assert id in IdsOf(t, date) && top in IdsOf(t, date);
      }
      var rest := ids - {top};
      forall n | 1 <= n <= k - 1
        ensures Carries(t, rest, n)
      {
        assert Carries(t, ids, n);
        var id :| id in ids && t[id].number == n;
        assert id in rest;
      }
      CountByNumber(t, date, rest, k - 1);
    }
  }

  /** A worker on its own never inserts a stale number ... */
  ghost predicate OnlyWorker(steps: seq<Step>, worker: string) {
    forall i :: 0 <= i < |steps| && !steps[i].Apply? ==> steps[i].worker == worker
  }

  ghost predicate ReadingIsNext(s: State, worker: string) {
    && s.readings.Keys <= {worker}
    && (worker in s.readings ==> IsNextNumber(s.rows, s.readings[worker].date, s.readings[worker].number))
  }

  lemma {:induction false} LoneWorkerIsOneReader(s: State, steps: seq<Step>, worker: string)
    requires Runnable(s, steps) && OnlyWorker(steps, worker) && s.readings.Keys <= {worker}
    ensures OneReaderPerDate(s, steps)
    decreases |steps|
  {
    hide Applies, HasActive, IsNextNumber;
    if steps != [] {
      assert forall i :: 0 <= i < |steps[1..]| ==> steps[1..][i] == steps[i + 1];
      LoneWorkerIsOneReader(Next(s, steps[0]), steps[1..], worker);
    }
  }

  lemma LoneWorkerIsFresh(s: State, steps: seq<Step>, worker: string)
    requires Inv(s) && Runnable(s, steps) && OnlyWorker(steps, worker) && ReadingIsNext(s, worker)
    ensures AllFresh(s, steps)
  {
    LoneWorkerIsOneReader(s, steps, worker);
    OneReaderIsUndisturbed(s, steps);
    assert Tracks(s, {});
    FreshIffUndisturbed(s, steps, {});
  }

  lemma RunsOn(s: State, step: Step, rest: seq<Step>)
    requires Enabled(s, step) && Runnable(Next(s, step), rest)
    ensures Runnable(s, [step] + rest) && After(s, [step] + rest) == After(Next(s, step), rest)
  {
  }

  /** ... but two workers can: the second reads number 1 before the first inserts it, and
      inserts after the first attempt has ended. */
  lemma TwoWorkersCanCollide() returns (steps: seq<Step>)
    ensures Runnable(EMPTY, steps) && !Distinct(After(EMPTY, steps).rows)
  {
    var reading, mark := Reading(7, 1), Cancel("stopped");
    var s1 := EMPTY.(readings := map["a" := reading]);
    var s2 := EMPTY.(readings := map["a" := reading, "b" := reading]);
    var s3 := State(map[0 := NewAttempt(7, 1)], 1, map["b" := reading]);
    var s4 := s3.(rows := map[0 := MarkedRow(NewAttempt(7, 1), mark, 5)]);
    var s5 := State(s4.rows[1 := NewAttempt(7, 1)], 2, map[]);
    FirstWorkerEnds(s2, s3, s4, reading, mark);
    assert !HasActive(s4.rows, 7);
    assert Next(s4, Insert("b")) == s5;
    assert Next(EMPTY, Read("a", 7, 1)) == s1 && Next(s1, Read("b", 7, 1)) == s2;
    assert s5.rows[0].number == s5.rows[1].number && s5.rows[0].date == s5.rows[1].date;
    hide Next, Enabled;
    RunsOn(s4, Insert("b"), []);
    RunsOn(s3, Apply(0, mark, 5), [Insert("b")] + []);
    RunsOn(s2, Insert("a"), [Apply(0, mark, 5)] + ([Insert("b")] + []));
    steps := [Insert("a")] + ([Apply(0, mark, 5)] + ([Insert("b")] + []));
    RunsOn(s1, Read("b", 7, 1), steps);
    RunsOn(EMPTY, Read("a", 7, 1), [Read("b", 7, 1)] + steps);
    steps := [Read("a", 7, 1)] + ([Read("b", 7, 1)] + steps);
  }

  lemma FirstWorkerEnds(s2: State, s3: State, s4: State, reading: Reading, mark: Mark)
    requires reading == Reading(7, 1) && mark == Cancel("stopped")
    requires s2 == EMPTY.(readings := map["a" := reading, "b" := reading])
    requires s3 == State(map[0 := NewAttempt(7, 1)], 1, map["b" := reading])
    requires s4 == s3.(rows := map[0 := MarkedRow(NewAttempt(7, 1), mark, 5)])
    ensures Next(s2, Insert("a")) == s3 && Next(s3, Apply(0, mark, 5)) == s4
    ensures s4.rows[0].status == Cancelled
  {
  }
}
