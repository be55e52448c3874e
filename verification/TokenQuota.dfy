/** The daily token quotas: which calls a check lets through before anything they use can be seen. */
module TokenQuota {
  import opened Outcomes
  import opened TokenUsage

  const MAX_TOOL_ROUNDS: nat := 2

  /** What a worker does after a check: one video sub-chunk, one answer, or one daily summary. A
      single-pass summary makes as many calls as a serial one without sections. */
  datatype Job = SubChunk | Answer | Summary(sections: nat)

  /** The calls a job makes at most before its rows are committed. Every section of a summary and
      its rollup may be asked for twice. */
  function CallsPerCheck(job: Job): nat {
    match job
    case SubChunk => 1
    case Answer => MAX_TOOL_ROUNDS + 1
    case Summary(sections) => 2 * (sections + 1)
  }

  /** A failing summary records the usage of the last reply, even if it has been recorded before. */
  function RowsPerCheck(job: Job): nat {
    CallsPerCheck(job) + if job.Summary? then 1 else 0
  }

  function Failures(parses: seq<bool>): (n: nat)
    ensures n <= |parses|
  {
    if parses == [] then 0 else Failures(parses[..|parses| - 1]) + if parses[|parses| - 1] then 0 else 1
  }

  /** The serial summary: one call per section and one for the rollup, and one more wherever the
      first reply cannot be parsed. */
  method SummaryCalls(sectionParses: seq<bool>, rollupParses: bool) returns (calls: nat)
    ensures calls == |sectionParses| + Failures(sectionParses) + if rollupParses then 1 else 2
    ensures calls <= CallsPerCheck(Summary(|sectionParses|))
    ensures calls == CallsPerCheck(Summary(|sectionParses|)) <==> Failures(sectionParses) == |sectionParses| && !rollupParses
  {
    calls := 0;
    for i := 0 to |sectionParses|
      invariant calls == i + Failures(sectionParses[..i])
    {
      assert sectionParses[..i + 1][..i] == sectionParses[..i];
      calls := calls + 1;
      if !sectionParses[i] {
        calls := calls + 1;
      }
    }
    assert sectionParses[..|sectionParses|] == sectionParses;
    calls := calls + 1;
    if !rollupParses {
      calls := calls + 1;
    }
  }

  /** The answer: a round per call that asks for tools, and a last call without tools if all of them
      did. `asksForTools[k]` is what the reply of round `k` would ask for. */
  method AnswerCalls(asksForTools: seq<bool>) returns (calls: nat)
    requires |asksForTools| == MAX_TOOL_ROUNDS
    ensures 1 <= calls <= CallsPerCheck(Answer)
    ensures calls <= MAX_TOOL_ROUNDS ==> !asksForTools[calls - 1]
    ensures forall k :: 0 <= k < calls - 1 ==> asksForTools[k]
  {
    calls := 0;
    for round := 0 to MAX_TOOL_ROUNDS
      invariant calls == round
      invariant forall k :: 0 <= k < round ==> asksForTools[k]
    {
      calls := calls + 1;
      if !asksForTools[round] {
        return;
      }
    }
    calls := calls + 1;
  }

  /** A quota that is not positive is no quota. A provider's own quota replaces the common one. */
  datatype Quotas = Quotas(everyone: int, perProvider: int, own: map<int, int>)

  /** The sum for everyone, or for one provider. */
  type Scope = Option<int>

  function QuotaOf(quotas: Quotas, scope: Scope): int {
    if scope.None? then quotas.everyone
    else if scope.value in quotas.own then quotas.own[scope.value]
    else quotas.perProvider
  }

  predicate Counts(row: LogRow, date: nat, scope: Scope) {
    row.key.date == date && (scope.None? || row.key.providerId == scope)
  }

  /** `_sum_tokens` */
  function Spent(rows: seq<LogRow>, date: nat, scope: Scope): int {
    if rows == [] then 0
    else
      var last := rows[|rows| - 1];
      Spent(rows[..|rows| - 1], date, scope) + if Counts(last, date, scope) then last.tokens.total else 0
  }

  predicate Below(quotas: Quotas, log: seq<LogRow>, date: nat, scope: Scope) {
    QuotaOf(quotas, scope) > 0 ==> Spent(log, date, scope) < QuotaOf(quotas, scope)
  }

  /** `enforce_token_quota` lets the caller pass. */
  predicate WithinQuota(quotas: Quotas, log: seq<LogRow>, date: nat, provider: int) {
    Below(quotas, log, date, None) && Below(quotas, log, date, Some(provider))
  }

  /** A check passes exactly if the day's tokens are below the common quota and the provider's are
      below its own quota or, for want of one, the common quota per provider. */
  lemma CheckPasses(quotas: Quotas, log: seq<LogRow>, date: nat, provider: int)
    ensures WithinQuota(quotas, log, date, provider) <==>
      && (quotas.everyone <= 0 || SumOfDay(log, date).total < quotas.everyone)
      && var quota := if provider in quotas.own then quotas.own[provider] else quotas.perProvider;
        quota <= 0 || Spent(log, date, Some(provider)) < quota
  {
    QuotaCountsTheDay(log, date);
  }

  /** A provider's tokens of a day are those of its own groups of that day. */
  lemma ProviderShare(log: seq<LogRow>, row: LogRow, date: nat, provider: int)
    ensures Spent(log + [row], date, Some(provider)) - Spent(log, date, Some(provider))
         == if row.key.date == date && row.key.providerId == Some(provider) then row.tokens.total else 0
    ensures Spent([], date, Some(provider)) == 0
  {
  }

  // ---------------------------------------------------------------------------
  // Workers
  // ---------------------------------------------------------------------------

  datatype Provider = Provider(id: int, name: string)

  /** A job under way: the calls it may still make, the usage of the last reply, and the rows
      that its session holds and nobody else sees. */
  datatype Grant = Grant(job: Job, provider: Provider, left: nat, last: Tokens, rows: seq<LogRow>)

  /** The committed log and the workers. */
  datatype System = System(today: nat, log: seq<LogRow>, workers: seq<Option<Grant>>)

  /** A summary fails on a reply that it cannot use (`reply`), or on an exception outside its calls,
      and then records the usage it finds: that of its last reply. */
  datatype Step =
    | Check(w: nat, job: Job, provider: Provider)
    | Call(w: nat, usage: Tokens)
    | Fail(w: nat, reply: Option<Tokens>)
    | Commit(w: nat)
    | Rollback(w: nat)
    | Midnight

  /** The jobs there are, and the most tokens a call can use. */
  datatype Setting = Setting(quotas: Quotas, jobs: set<Job>, largest: nat)

  predicate Small(usage: Tokens, largest: nat) {
    Recorded(usage).Some? ==> Recorded(usage).value.total <= largest
  }

  /** An answer checks again before each of its calls, against the committed rows of others. */
  predicate Possible(s: System, step: Step, setting: Setting) {
    step.Midnight? || (
      && step.w < |s.workers|
      && match (step, s.workers[step.w]) {
           case (Check(_, job, provider), None) =>
             job in setting.jobs && WithinQuota(setting.quotas, s.log, s.today, provider.id)
           case (Call(_, usage), Some(g)) =>
             && g.left > 0 && Small(usage, setting.largest)
             && (g.job.Answer? ==> WithinQuota(setting.quotas, s.log, s.today, g.provider.id))
           case (Fail(_, reply), Some(g)) =>
             g.job.Summary? && (reply.Some? ==> g.left > 0 && Small(reply.value, setting.largest))
           case (Commit(_), Some(_)) => true
           case (Rollback(_), Some(_)) => true
           case _ => false
         })
  }

  /** A worker may call exactly while it has calls left and, for an answer, the committed log is
      below both quotas: an analysis or a summary is not stopped by what others have used since. */
  lemma CallPossible(s: System, w: nat, usage: Tokens, setting: Setting)
    requires w < |s.workers| && s.workers[w].Some? && Small(usage, setting.largest)
    ensures var g := s.workers[w].value;
      Possible(s, Call(w, usage), setting) <==>
        g.left > 0 && (g.job.Answer? ==> WithinQuota(setting.quotas, s.log, s.today, g.provider.id))
  {
  }

  function NewRows(today: nat, provider: Provider, usage: Tokens): seq<LogRow> {
    var tokens := Recorded(usage);
    if tokens.None? then [] else [LogRow(Key(today, Some(provider.id), Some(provider.name)), tokens.value)]
  }

  function Advance(s: System, step: Step): System
    requires step.Midnight? || (step.w < |s.workers| && (step.Check? || s.workers[step.w].Some?))
  {
    match step
    case Midnight => s.(today := s.today + 1)
    case Check(w, job, provider) =>
      s.(workers := s.workers[w := Some(Grant(job, provider, CallsPerCheck(job), NO_TOKENS, []))])
    case Call(w, usage) =>
      var g := s.workers[w].value;
      s.(workers := s.workers[w := Some(AfterCall(s.today, g, usage))])
    case Fail(w, reply) =>
      var g := s.workers[w].value;
      var usage := if reply.Some? then reply.value else g.last;
      s.(log := s.log + (g.rows + NewRows(s.today, g.provider, usage)), workers := s.workers[w := None])
    case Commit(w) => s.(log := s.log + s.workers[w].value.rows, workers := s.workers[w := None])
    case Rollback(w) => s.(workers := s.workers[w := None])
  }

  function AfterCall(today: nat, g: Grant, usage: Tokens): Grant {
    g.(left := if g.left > 0 then g.left - 1 else 0, last := usage, rows := g.rows + NewRows(today, g.provider, usage))
  }

  predicate Run(s: System, steps: seq<Step>, setting: Setting)
    decreases |steps|
  {
    steps == [] || (Possible(s, steps[0], setting) && Run(Advance(s, steps[0]), steps[1..], setting))
  }

  function After(s: System, steps: seq<Step>, setting: Setting): System
    requires Run(s, steps, setting)
    decreases |steps|
  {
    if steps == [] then s else After(Advance(s, steps[0]), steps[1..], setting)
  }

  /** No job is under way, and no row is from the future. */
  predicate AtRest(s: System) {
    && (forall w :: 0 <= w < |s.workers| ==> s.workers[w].None?)
    && NoFuture(s.log, s.today)
  }

  predicate NoFuture(rows: seq<LogRow>, today: nat) {
    forall i :: 0 <= i < |rows| ==> rows[i].key.date <= today
  }

  predicate JobsWithin(jobs: set<Job>, rows: nat) {
    forall job :: job in jobs ==> RowsPerCheck(job) <= rows
  }

  // ---------------------------------------------------------------------------
  // Sums
  // ---------------------------------------------------------------------------

  /** The quota counts what the daily statistics show. */
  lemma {:induction false} QuotaCountsTheDay(rows: seq<LogRow>, date: nat)
    ensures Spent(rows, date, None) == SumOfDay(rows, date).total
  {
    if rows != [] {
      QuotaCountsTheDay(rows[..|rows| - 1], date);
    }
  }

  lemma {:induction false} SpentOfBoth(a: seq<LogRow>, b: seq<LogRow>, date: nat, scope: Scope)
    ensures Spent(a + b, date, scope) == Spent(a, date, scope) + Spent(b, date, scope)
  {
    if b == [] {
      assert a + b == a;
    } else {
      SpentOfBoth(a, b[..|b| - 1], date, scope);
      assert (a + b)[..|a + b| - 1] == a + b[..|b| - 1];
    }
  }

  lemma {:induction false} NothingSpentAhead(rows: seq<LogRow>, today: nat, date: nat, scope: Scope)
    requires NoFuture(rows, today) && today < date
    ensures Spent(rows, date, scope) == 0
  {
    if rows != [] {
      NothingSpentAhead(rows[..|rows| - 1], today, date, scope);
    }
  }

  predicate RowsFit(rows: seq<LogRow>, largest: nat) {
    forall i :: 0 <= i < |rows| ==> 0 <= rows[i].tokens.total <= largest
  }

  lemma {:induction false} SpentAtMost(rows: seq<LogRow>, date: nat, scope: Scope, largest: nat)
    requires RowsFit(rows, largest)
    ensures 0 <= Spent(rows, date, scope) <= |rows| * largest
  {
    if rows != [] {
      SpentAtMost(rows[..|rows| - 1], date, scope, largest);
      assert |rows| * largest == (|rows| - 1) * largest + largest;
      hide *;
    }
  }

  lemma {:induction false} SpentElsewhere(rows: seq<LogRow>, provider: int, date: nat, scope: Scope)
    requires scope.Some? && scope.value != provider
    requires forall i :: 0 <= i < |rows| ==> rows[i].key.providerId == Some(provider)
    ensures Spent(rows, date, scope) == 0
  {
    if rows != [] {
      SpentElsewhere(rows[..|rows| - 1], provider, date, scope);
    }
  }

  lemma SpentOfNew(today: nat, provider: Provider, usage: Tokens, date: nat, scope: Scope, largest: nat)
    requires Small(usage, largest)
    ensures var rows := NewRows(today, provider, usage);
      && |rows| <= 1 && RowsFit(rows, largest) && NoFuture(rows, today)
      && 0 <= Spent(rows, date, scope) <= (if date == today then largest else 0)
  {
  }

  // ---------------------------------------------------------------------------
  // What a job under way may still add to a day
  // ---------------------------------------------------------------------------

  predicate InScope(g: Grant, scope: Scope) {
    scope.None? || scope == Some(g.provider.id)
  }

  /** The rows a job may still add after those it holds. */
  function RowsLeft(g: Grant): nat {
    g.left + if g.job.Summary? then 1 else 0
  }

  predicate Sound(g: Grant, today: nat, setting: Setting) {
    && g.job in setting.jobs && Small(g.last, setting.largest)
    && RowsFit(g.rows, setting.largest) && NoFuture(g.rows, today)
    && (forall i :: 0 <= i < |g.rows| ==> g.rows[i].key.providerId == Some(g.provider.id))
    && |g.rows| + g.left <= CallsPerCheck(g.job)
  }

  function OwedBy(g: Grant, today: nat, date: nat, scope: Scope, largest: nat): int {
    if !InScope(g, scope) then 0
    else Spent(g.rows, date, scope) + if today <= date then RowsLeft(g) * largest else 0
  }

  function Owed(w: Option<Grant>, today: nat, date: nat, scope: Scope, largest: nat): int {
    if w.None? then 0 else OwedBy(w.value, today, date, scope, largest)
  }

  function Debts(workers: seq<Option<Grant>>, today: nat, date: nat, scope: Scope, largest: nat): int {
    if workers == [] then 0
    else Owed(workers[0], today, date, scope, largest) + Debts(workers[1..], today, date, scope, largest)
  }

  predicate AllSound(s: System, setting: Setting) {
    && NoFuture(s.log, s.today)
    && forall w :: 0 <= w < |s.workers| && s.workers[w].Some? ==> Sound(s.workers[w].value, s.today, setting)
  }

  lemma OwedIsBounded(g: Grant, today: nat, date: nat, scope: Scope, setting: Setting, rows: nat)
    requires Sound(g, today, setting) && JobsWithin(setting.jobs, rows)
    ensures 0 <= OwedBy(g, today, date, scope, setting.largest) <= rows * setting.largest
    ensures Spent(g.rows, date, scope) <= OwedBy(g, today, date, scope, setting.largest)
  {
    if InScope(g, scope) {
      SpentAtMost(g.rows, date, scope, setting.largest);
      Scaled(|g.rows|, RowsLeft(g), rows, setting.largest);
    } else {
      SpentElsewhere(g.rows, g.provider.id, date, scope);
    }
  }

  lemma Scaled(a: nat, b: nat, c: nat, largest: nat)
    requires a + b <= c
    ensures a * largest + b * largest <= c * largest
  {
    assert a * largest + b * largest == (a + b) * largest;
    assert c * largest == (a + b) * largest + (c - a - b) * largest;
  }

  lemma {:induction false} DebtsOfUpdate(
    workers: seq<Option<Grant>>, w: nat, worker: Option<Grant>, today: nat, date: nat, scope: Scope, largest: nat)
    requires w < |workers|
    ensures Debts(workers[w := worker], today, date, scope, largest)
         == Debts(workers, today, date, scope, largest)
            - Owed(workers[w], today, date, scope, largest) + Owed(worker, today, date, scope, largest)
    decreases w
  {
    hide Owed;
    if w > 0 {
      DebtsOfUpdate(workers[1..], w - 1, worker, today, date, scope, largest);
      assert workers[w := worker][1..] == workers[1..][w - 1 := worker];
    } else {
      assert workers[w := worker][1..] == workers[1..];
    }
  }

  lemma {:induction false} DebtsAreBounded(
    workers: seq<Option<Grant>>, today: nat, date: nat, scope: Scope, setting: Setting, rows: nat)
    requires JobsWithin(setting.jobs, rows)
    requires forall w :: 0 <= w < |workers| && workers[w].Some? ==> Sound(workers[w].value, today, setting)
    ensures 0 <= Debts(workers, today, date, scope, setting.largest) <= |workers| * (rows * setting.largest)
  {
    hide Sound, JobsWithin, OwedBy;
    if workers != [] {
      DebtsAreBounded(workers[1..], today, date, scope, setting, rows);
      if workers[0].Some? {
        OwedIsBounded(workers[0].value, today, date, scope, setting, rows);
      }
    }
  }

  lemma {:induction false} IdleOwesNothing(workers: seq<Option<Grant>>, today: nat, date: nat, scope: Scope, largest: nat)
    requires forall w :: 0 <= w < |workers| ==> workers[w].None?
    ensures Debts(workers, today, date, scope, largest) == 0
  {
    if workers != [] {
      IdleOwesNothing(workers[1..], today, date, scope, largest);
    }
  }

  lemma {:induction false} MidnightLowersDebts(
    workers: seq<Option<Grant>>, today: nat, date: nat, scope: Scope, largest: nat)
    ensures Debts(workers, today + 1, date, scope, largest) <= Debts(workers, today, date, scope, largest)
  {
    if workers != [] {
      MidnightLowersDebts(workers[1..], today, date, scope, largest);
    }
  }

  // ---------------------------------------------------------------------------
  // What each step does to a day's sum and debts
  // ---------------------------------------------------------------------------

  lemma StepKeepsSound(s: System, step: Step, setting: Setting)
    requires AllSound(s, setting) && Possible(s, step, setting)
    ensures AllSound(Advance(s, step), setting)
  {
  }

  lemma CallPays(g: Grant, today: nat, usage: Tokens, date: nat, scope: Scope, setting: Setting)
    requires Sound(g, today, setting) && g.left > 0 && Small(usage, setting.largest)
    ensures OwedBy(AfterCall(today, g, usage), today, date, scope, setting.largest)
         <= OwedBy(g, today, date, scope, setting.largest)
  {
    hide Sound, Small;
    SpentOfBoth(g.rows, NewRows(today, g.provider, usage), date, scope);
    SpentOfNew(today, g.provider, usage, date, scope, setting.largest);
    Scaled(RowsLeft(g) - 1, 1, RowsLeft(g), setting.largest);
  }

  lemma FailPays(g: Grant, today: nat, usage: Tokens, date: nat, scope: Scope, setting: Setting)
    requires Sound(g, today, setting) && g.job.Summary? && Small(usage, setting.largest)
    ensures 0 <= Spent(g.rows + NewRows(today, g.provider, usage), date, scope)
              <= OwedBy(g, today, date, scope, setting.largest)
  {
    hide Small, NewRows, Spent, NoFuture, CallsPerCheck;
    FailAdds(g, today, usage, date, scope, setting);
    SpentAtMost(g.rows, date, scope, setting.largest);
    Scaled(g.left, 1, RowsLeft(g), setting.largest);
    SpentOfBoth(g.rows, NewRows(today, g.provider, usage), date, scope);
    if !InScope(g, scope) {
      SpentElsewhere(g.rows, g.provider.id, date, scope);
    }
  }

  lemma FailAdds(g: Grant, today: nat, usage: Tokens, date: nat, scope: Scope, setting: Setting)
    requires Small(usage, setting.largest)
    ensures 0 <= Spent(NewRows(today, g.provider, usage), date, scope)
              <= if InScope(g, scope) && today == date then setting.largest else 0
  {
  }

  /** A day's committed tokens and what the jobs under way may still add to them. */
  function Exposure(s: System, date: nat, scope: Scope, largest: nat): int {
    Spent(s.log, date, scope) + Debts(s.workers, s.today, date, scope, largest)
  }

  /** No step but a check adds to the exposure, and none takes committed tokens away. */
  lemma StepPays(s: System, step: Step, setting: Setting, date: nat, scope: Scope)
    requires AllSound(s, setting) && Possible(s, step, setting) && !step.Check?
    ensures var e := Advance(s, step);
      && Spent(s.log, date, scope) <= Spent(e.log, date, scope)
      && Exposure(e, date, scope, setting.largest) <= Exposure(s, date, scope, setting.largest)
  {
    hide WithinQuota, Spent, Sound, OwedBy, Debts, JobsWithin, NewRows, Small, NoFuture;
    if step.Midnight? {
      MidnightLowersDebts(s.workers, s.today, date, scope, setting.largest);
    } else {
      WorkerPays(s, step, setting, date, scope);
      DebtsOfUpdate(s.workers, step.w, Advance(s, step).workers[step.w], s.today, date, scope, setting.largest);
    }
  }

  lemma WorkerPays(s: System, step: Step, setting: Setting, date: nat, scope: Scope)
    requires AllSound(s, setting) && Possible(s, step, setting) && !step.Check? && !step.Midnight?
    ensures var e := Advance(s, step);
      var paid := Spent(e.log, date, scope) - Spent(s.log, date, scope);
      && 0 <= paid
      && Owed(e.workers[step.w], s.today, date, scope, setting.largest) + paid
           <= Owed(s.workers[step.w], s.today, date, scope, setting.largest)
  {
    hide WithinQuota, Spent, OwedBy, NewRows, Small, NoFuture, RowsFit;
    var g := s.workers[step.w].value;
    JobFitsItself(g.job);
    OwedIsBounded(g, s.today, date, scope, setting.(jobs := {g.job}), RowsPerCheck(g.job));
    match step {
      case Call(_, usage) => CallPays(g, s.today, usage, date, scope, setting);
      case Fail(_, reply) =>
        var usage := if reply.Some? then reply.value else g.last;
        FailPays(g, s.today, usage, date, scope, setting);
        SpentOfBoth(s.log, g.rows + NewRows(s.today, g.provider, usage), date, scope);
      case Commit(_) =>
        SpentIsNotNegative(g, s.today, date, scope, setting);
        SpentOfBoth(s.log, g.rows, date, scope);
      case Rollback(_) =>
    }
  }

  lemma JobFitsItself(job: Job)
    ensures JobsWithin({job}, RowsPerCheck(job))
  {
  }

  lemma SpentIsNotNegative(g: Grant, today: nat, date: nat, scope: Scope, setting: Setting)
    requires Sound(g, today, setting)
    ensures 0 <= Spent(g.rows, date, scope)
  {
    SpentAtMost(g.rows, date, scope, setting.largest);
  }

  /** A check adds to the exposure of a day only while the day is below its quota. */
  lemma CheckFindsRoom(s: System, step: Step, setting: Setting, date: nat, scope: Scope)
    requires AllSound(s, setting) && Possible(s, step, setting) && step.Check? && QuotaOf(setting.quotas, scope) > 0
    ensures Advance(s, step).log == s.log
    ensures Exposure(Advance(s, step), date, scope, setting.largest) == Exposure(s, date, scope, setting.largest)
            || Spent(s.log, date, scope) < QuotaOf(setting.quotas, scope)
  {
    hide Spent, Debts;
    var worker := Advance(s, step).workers[step.w];
    DebtsOfUpdate(s.workers, step.w, worker, s.today, date, scope, setting.largest);
    if s.today < date {
      NothingSpentAhead(s.log, s.today, date, scope);
    }
    NothingSpentYet(date, scope);
  }

  lemma NothingSpentYet(date: nat, scope: Scope)
    ensures Spent([], date, scope) == 0
  {
  }

  // ---------------------------------------------------------------------------
  // The bound
  // ---------------------------------------------------------------------------

  /** Nothing has been added to `start` and nothing is coming, or the exposure is below `bound`. */
  predicate Held(start: int, spent: int, exposure: int, bound: int) {
    (spent == start && exposure == start) || exposure < bound
  }

  function Bound(setting: Setting, scope: Scope, width: nat, rows: nat): int {
    QuotaOf(setting.quotas, scope) + width * (rows * setting.largest)
  }

  lemma StepKeepsHeld(s: System, step: Step, setting: Setting, start: int, rows: nat, date: nat, scope: Scope)
    requires AllSound(s, setting) && Possible(s, step, setting)
    requires JobsWithin(setting.jobs, rows) && QuotaOf(setting.quotas, scope) > 0
    requires Held(start, Spent(s.log, date, scope), Exposure(s, date, scope, setting.largest),
                  Bound(setting, scope, |s.workers|, rows))
    ensures var e := Advance(s, step);
      Held(start, Spent(e.log, date, scope), Exposure(e, date, scope, setting.largest),
           Bound(setting, scope, |e.workers|, rows))
  {
    hide Spent, Debts, JobsWithin, WithinQuota, Sound, NoFuture, QuotaOf;
    var e := Advance(s, step);
    StepKeepsWidth(s, step, setting);
    StepKeepsSound(s, step, setting);
    DebtsAreBounded(e.workers, e.today, date, scope, setting, rows);
    if step.Check? {
      CheckFindsRoom(s, step, setting, date, scope);
    } else {
      StepPays(s, step, setting, date, scope);
    }
  }

  lemma StepKeepsWidth(s: System, step: Step, setting: Setting)
    requires Possible(s, step, setting)
    ensures |Advance(s, step).workers| == |s.workers|
  {
  }

  lemma {:induction false} RunKeepsHeld(
    s: System, steps: seq<Step>, setting: Setting, start: int, rows: nat, date: nat, scope: Scope)
    requires AllSound(s, setting) && Run(s, steps, setting)
    requires JobsWithin(setting.jobs, rows) && QuotaOf(setting.quotas, scope) > 0
    requires Held(start, Spent(s.log, date, scope), Exposure(s, date, scope, setting.largest),
                  Bound(setting, scope, |s.workers|, rows))
    ensures var e := After(s, steps, setting);
      && AllSound(e, setting) && |e.workers| == |s.workers|
      && Held(start, Spent(e.log, date, scope), Exposure(e, date, scope, setting.largest),
              Bound(setting, scope, |s.workers|, rows))
    decreases |steps|
  {
    hide Held, Bound, AllSound, Spent, Exposure, WithinQuota, JobsWithin, QuotaOf;
    if steps != [] {
      StepKeepsHeld(s, steps[0], setting, start, rows, date, scope);
      StepKeepsSound(s, steps[0], setting);
      StepKeepsWidth(s, steps[0], setting);
      RunKeepsHeld(Advance(s, steps[0]), steps[1..], setting, start, rows, date, scope);
    }
  }

  /** Over every run, across midnights, failures and rollbacks: no day's total and no provider's
      share of it that moves at all reaches its quota plus, for every worker, the largest rows
      that one check lets through. */
  lemma OvershootIsBounded(s: System, steps: seq<Step>, setting: Setting, rows: nat, date: nat, scope: Scope)
    requires AtRest(s) && Run(s, steps, setting)
    requires JobsWithin(setting.jobs, rows) && QuotaOf(setting.quotas, scope) > 0
    ensures var before, after := Spent(s.log, date, scope), Spent(After(s, steps, setting).log, date, scope);
      after == before || after < QuotaOf(setting.quotas, scope) + |s.workers| * (rows * setting.largest)
  {
    hide Run, After, Spent, JobsWithin, Sound, NoFuture, QuotaOf, Debts;
    IdleOwesNothing(s.workers, s.today, date, scope, setting.largest);
    RunKeepsHeld(s, steps, setting, Spent(s.log, date, scope), rows, date, scope);
    var e := After(s, steps, setting);
    DebtsAreBounded(e.workers, e.today, date, scope, setting, rows);
  }

  // ---------------------------------------------------------------------------
  // The bound is attained
  // ---------------------------------------------------------------------------

  lemma {:induction false} RunsCompose(s: System, a: seq<Step>, b: seq<Step>, setting: Setting)
    requires Run(s, a, setting) && Run(After(s, a, setting), b, setting)
    ensures Run(s, a + b, setting) && After(s, a + b, setting) == After(After(s, a, setting), b, setting)
    decreases |a|
  {
    hide WithinQuota;
    if a == [] {
      assert a + b == b;
    } else {
      RunsCompose(Advance(s, a[0]), a[1..], b, setting);
      assert (a + b)[1..] == a[1..] + b && (a + b)[0] == a[0];
    }
  }

  /** The usage of a largest call. */
  function Largest(setting: Setting): Tokens {
    Tokens(setting.largest, 0, setting.largest)
  }

  lemma SpentOfLargest(today: nat, provider: Provider, setting: Setting, scope: Scope)
    requires scope in {None, Some(provider.id)}
    ensures Spent(NewRows(today, provider, Largest(setting)), today, scope) == setting.largest
  {
  }

  lemma OneStep(s: System, step: Step, setting: Setting)
    requires Possible(s, step, setting)
    ensures Run(s, [step], setting) && After(s, [step], setting) == Advance(s, step)
  {
  }

  /** A job that has made all its calls, each with the largest usage. */
  predicate Spending(g: Grant, job: Job, provider: Provider, calls: nat, today: nat, setting: Setting, scope: Scope) {
    && g.job == job && g.provider == provider && g.left + calls == CallsPerCheck(job)
    && (calls > 0 ==> g.last == Largest(setting))
    && Spent(g.rows, today, scope) == calls * setting.largest
  }

  lemma {:induction false} CallOn(s: System, w: nat, calls: nat, setting: Setting, scope: Scope) returns (steps: seq<Step>)
    requires w < |s.workers| && s.workers[w].Some?
    requires var g := s.workers[w].value;
      && Spending(g, g.job, g.provider, calls, s.today, setting, scope)
      && WithinQuota(setting.quotas, s.log, s.today, g.provider.id) && scope in {None, Some(g.provider.id)}
    ensures Run(s, steps, setting)
    ensures var e, g := After(s, steps, setting), s.workers[w].value;
      && |e.workers| == |s.workers| && e == s.(workers := s.workers[w := e.workers[w]])
      && e.workers[w].Some?
      && Spending(e.workers[w].value, g.job, g.provider, CallsPerCheck(g.job), s.today, setting, scope)
    decreases s.workers[w].value.left
  {
    hide WithinQuota, Spent, NewRows, CallsPerCheck;
    var g := s.workers[w].value;
    if g.left == 0 {
      steps := [];
      assert s.workers == s.workers[w := s.workers[w]];
    } else {
      var step := Call(w, Largest(setting));
      OneStep(s, step, setting);
      SpentOfBoth(g.rows, NewRows(s.today, g.provider, Largest(setting)), s.today, scope);
      SpentOfLargest(s.today, g.provider, setting, scope);
      assert (calls + 1) * setting.largest == calls * setting.largest + setting.largest;
      var next := Advance(s, step);
      assert next.workers == s.workers[w := next.workers[w]];
      var rest := CallOn(next, w, calls + 1, setting, scope);
      RunsCompose(s, [step], rest, setting);
      steps := [step] + rest;
    }
  }

  /** Every worker from `w` on holds such a job. */
  predicate SpendingFrom(s: System, w: nat, job: Job, provider: Provider, setting: Setting, scope: Scope) {
    forall v :: w <= v < |s.workers| ==>
      && s.workers[v].Some?
      && Spending(s.workers[v].value, job, provider, CallsPerCheck(job), s.today, setting, scope)
  }

  lemma LoadOne(s: System, w: nat, job: Job, provider: Provider, setting: Setting, scope: Scope)
    returns (steps: seq<Step>)
    requires w < |s.workers| && s.workers[w].None?
    requires job in setting.jobs && WithinQuota(setting.quotas, s.log, s.today, provider.id)
    requires scope in {None, Some(provider.id)}
    ensures Run(s, steps, setting)
    ensures var e := After(s, steps, setting);
      && |e.workers| == |s.workers| && e == s.(workers := s.workers[w := e.workers[w]])
      && e.workers[w].Some?
      && Spending(e.workers[w].value, job, provider, CallsPerCheck(job), s.today, setting, scope)
  {
    hide WithinQuota, CallsPerCheck, Spent;
    var step := Check(w, job, provider);
    OneStep(s, step, setting);
    NothingSpentYet(s.today, scope);
    var calls := CallOn(Advance(s, step), w, 0, setting, scope);
    RunsCompose(s, [step], calls, setting);
    steps := [step] + calls;
    var e := After(s, steps, setting);
    assert s.workers[w := Advance(s, step).workers[w]][w := e.workers[w]] == s.workers[w := e.workers[w]];
  }

  lemma {:induction false} LoadAll(s: System, w: nat, job: Job, provider: Provider, setting: Setting, scope: Scope)
    returns (steps: seq<Step>)
    requires w <= |s.workers| && (forall v :: w <= v < |s.workers| ==> s.workers[v].None?)
    requires job in setting.jobs && WithinQuota(setting.quotas, s.log, s.today, provider.id)
    requires scope in {None, Some(provider.id)}
    ensures Run(s, steps, setting)
    ensures var e := After(s, steps, setting);
      && e.log == s.log && e.today == s.today && |e.workers| == |s.workers|
      && (forall v :: 0 <= v < w ==> e.workers[v] == s.workers[v])
      && SpendingFrom(e, w, job, provider, setting, scope)
    decreases |s.workers| - w
  {
    hide WithinQuota, Spending, Possible;
    if w == |s.workers| {
      steps := [];
    } else {
      var one := LoadOne(s, w, job, provider, setting, scope);
      var rest := LoadAll(After(s, one, setting), w + 1, job, provider, setting, scope);
      RunsCompose(s, one, rest, setting);
      steps := one + rest;
    }
  }

  lemma {:induction false} SettleAll(s: System, w: nat, job: Job, provider: Provider, setting: Setting, scope: Scope)
    returns (steps: seq<Step>)
    requires w <= |s.workers| && SpendingFrom(s, w, job, provider, setting, scope)
    requires scope in {None, Some(provider.id)}
    ensures Run(s, steps, setting)
    ensures Spent(After(s, steps, setting).log, s.today, scope)
         == Spent(s.log, s.today, scope) + (|s.workers| - w) * (RowsPerCheck(job) * setting.largest)
    decreases |s.workers| - w
  {
    hide WithinQuota, CallsPerCheck, Spent, NewRows;
    if w == |s.workers| {
      steps := [];
    } else {
      var g := s.workers[w].value;
      var step := if job.Summary? then Fail(w, None) else Commit(w);
      OneStep(s, step, setting);
      var settled := Advance(s, step);
      SettleOne(s, w, job, provider, setting, scope);
      var rest := SettleAll(settled, w + 1, job, provider, setting, scope);
      RunsCompose(s, [step], rest, setting);
      steps := [step] + rest;
      var each := RowsPerCheck(job) * setting.largest;
      assert (|s.workers| - w) * each == (|s.workers| - w - 1) * each + each;
    }
  }

  lemma SettleOne(s: System, w: nat, job: Job, provider: Provider, setting: Setting, scope: Scope)
    requires w < |s.workers| && s.workers[w].Some? && scope in {None, Some(provider.id)}
    requires Spending(s.workers[w].value, job, provider, CallsPerCheck(job), s.today, setting, scope)
    ensures var step := if job.Summary? then Fail(w, None) else Commit(w);
      Spent(Advance(s, step).log, s.today, scope)
        == Spent(s.log, s.today, scope) + RowsPerCheck(job) * setting.largest
  {
    hide Spent, NewRows;
    var g := s.workers[w].value;
    assert CallsPerCheck(job) > 0;
    if job.Summary? {
      var failed := NewRows(s.today, provider, Largest(setting));
      SpentOfBoth(s.log, g.rows + failed, s.today, scope);
      SpentOfBoth(g.rows, failed, s.today, scope);
      SpentOfLargest(s.today, provider, setting, scope);
      assert (CallsPerCheck(job) + 1) * setting.largest == CallsPerCheck(job) * setting.largest + setting.largest;
    } else {
      SpentOfBoth(s.log, g.rows, s.today, scope);
    }
  }

  /** Nothing smaller will do: whenever a check would pass for a provider, all workers together
      can add the largest rows of one check each, to the day's total and to the provider's. */
  lemma OvershootIsAttained(s: System, job: Job, provider: Provider, setting: Setting, scope: Scope)
    returns (steps: seq<Step>)
    requires AtRest(s) && job in setting.jobs && WithinQuota(setting.quotas, s.log, s.today, provider.id)
    requires scope in {None, Some(provider.id)}
    ensures Run(s, steps, setting)
    ensures Spent(After(s, steps, setting).log, s.today, scope)
         == Spent(s.log, s.today, scope) + |s.workers| * (RowsPerCheck(job) * setting.largest)
  {
    hide WithinQuota, Spent, SpendingFrom, RowsPerCheck;
    var load := LoadAll(s, 0, job, provider, setting, scope);
    var loaded := After(s, load, setting);
    var settle := SettleAll(loaded, 0, job, provider, setting, scope);
    RunsCompose(s, load, settle, setting);
    steps := load + settle;
  }

  // ---------------------------------------------------------------------------
  // When one call per check is enough
  // ---------------------------------------------------------------------------

  /** In every run, a day's sum that moves stays below the quota plus `rows` largest per worker. */
  ghost predicate KeepsBelow(setting: Setting, width: nat, rows: nat, scope: Scope) {
    forall s: System, steps: seq<Step>, date: nat | AtRest(s) && |s.workers| == width && Run(s, steps, setting) ::
      var before, after := Spent(s.log, date, scope), Spent(After(s, steps, setting).log, date, scope);
      after == before || after < QuotaOf(setting.quotas, scope) + width * (rows * setting.largest)
  }

  /** Of the two quotas that a check looks at, neither is smaller than the one of `scope`. */
  predicate Unshadowed(quotas: Quotas, provider: int, scope: Scope) {
    && scope in {None, Some(provider)} && QuotaOf(quotas, scope) > 0
    && forall other :: other in {None, Some(provider)} && QuotaOf(quotas, other) > 0 ==>
         QuotaOf(quotas, scope) <= QuotaOf(quotas, other)
  }

  /** At rest, with all but one token of the quota used by this provider. */
  function Brink(setting: Setting, width: nat, provider: Provider, scope: Scope): System {
    var used := QuotaOf(setting.quotas, scope) - 1;
    System(0, [LogRow(Key(0, Some(provider.id), Some(provider.name)), Tokens(used, 0, used))], seq(width, i => None))
  }

  lemma BrinkPasses(setting: Setting, width: nat, provider: Provider, scope: Scope)
    requires Unshadowed(setting.quotas, provider.id, scope)
    ensures var s := Brink(setting, width, provider, scope);
      && s.today == 0 && AtRest(s) && |s.workers| == width && WithinQuota(setting.quotas, s.log, 0, provider.id)
      && Spent(s.log, 0, scope) == QuotaOf(setting.quotas, scope) - 1
  {
  }

  /** For a quota that is not shadowed by a smaller one, every run keeps it up to `rows` largest
      rows per worker if and only if no job can record more than `rows` rows on one check. */
  lemma KeepsBelowIff(setting: Setting, width: nat, rows: nat, provider: Provider, scope: Scope)
    requires width > 0 && setting.largest > 0 && Unshadowed(setting.quotas, provider.id, scope)
    ensures KeepsBelow(setting, width, rows, scope) <==> JobsWithin(setting.jobs, rows)
  {
    hide QuotaOf, WithinQuota, Spent, AtRest, Run, After, RowsPerCheck, Brink;
    if JobsWithin(setting.jobs, rows) {
      forall s: System, steps: seq<Step>, date: nat | AtRest(s) && |s.workers| == width && Run(s, steps, setting)
        ensures var before, after := Spent(s.log, date, scope), Spent(After(s, steps, setting).log, date, scope);
          after == before || after < QuotaOf(setting.quotas, scope) + width * (rows * setting.largest)
      {
        OvershootIsBounded(s, steps, setting, rows, date, scope);
      }
    } else {
      var job :| job in setting.jobs && RowsPerCheck(job) > rows;
      var s := Brink(setting, width, provider, scope);
      BrinkPasses(setting, width, provider, scope);
      var steps := OvershootIsAttained(s, job, provider, setting, scope);
      OneRowMore(RowsPerCheck(job), rows, width, setting.largest);
      assert !KeepsBelow(setting, width, rows, scope);
    }
  }

  lemma OneRowMore(more: nat, rows: nat, width: nat, largest: nat)
    requires more > rows && width > 0 && largest > 0
    ensures width * (more * largest) >= width * (rows * largest) + 1
  {
    assert more * largest == rows * largest + (more - rows) * largest;
    assert width * (more * largest) == width * (rows * largest) + width * ((more - rows) * largest);
  }

  /** So "at most one largest call per worker" is true of video analysis alone. */
  lemma OneCallIffOnlyAnalysis(setting: Setting, width: nat, provider: Provider, scope: Scope)
    requires width > 0 && setting.largest > 0 && Unshadowed(setting.quotas, provider.id, scope)
    ensures KeepsBelow(setting, width, 1, scope) <==> setting.jobs <= {SubChunk}
  {
    hide KeepsBelow, QuotaOf;
    KeepsBelowIff(setting, width, 1, provider, scope);
    assert JobsWithin(setting.jobs, 1) <==> setting.jobs <= {SubChunk} by {
      assert forall job :: RowsPerCheck(job) <= 1 <==> job == SubChunk;
    }
  }

  /** One worker, a quota of 1000 with 999 used, and one answer of three calls of 1000 tokens. */
  lemma OneWorkerOvershoots() returns (s: System, steps: seq<Step>, setting: Setting)
    ensures AtRest(s) && |s.workers| == 1 && Run(s, steps, setting)
    ensures setting == Setting(Quotas(1000, 0, map[]), {Answer}, 1000)
    ensures Spent(s.log, s.today, None) == 999
    ensures Spent(After(s, steps, setting).log, s.today, None) == 3999
  {
    setting := Setting(Quotas(1000, 0, map[]), {Answer}, 1000);
    var provider := Provider(1, "qa");
    s := Brink(setting, 1, provider, None);
    BrinkPasses(setting, 1, provider, None);
    steps := OvershootIsAttained(s, Answer, provider, setting, None);
  }
}
