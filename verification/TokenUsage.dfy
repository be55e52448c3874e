/** Token accounting: which calls are recorded, and the usage statistics. */
module TokenUsage {
  import opened Outcomes
  import opened TextCodec

  datatype Tokens = Tokens(prompt: int, completion: int, total: int)

  const NO_TOKENS := Tokens(0, 0, 0)

  function Add(a: Tokens, b: Tokens): Tokens {
    Tokens(a.prompt + b.prompt, a.completion + b.completion, a.total + b.total)
  }

  // ---------------------------------------------------------------------------
  // Recording
  // ---------------------------------------------------------------------------

  /** What `record_token_usage` stores of a reported usage, if anything. */
  function Recorded(reported: Tokens): (r: Option<Tokens>)
    ensures r.Some? ==> r.value.total > 0
    ensures r.None? <==> reported.total <= 0 && reported.prompt + reported.completion <= 0
    ensures reported.total > 0 ==> r == Some(reported)
  {
    var total := if reported.total <= 0 then reported.prompt + reported.completion else reported.total;
    if total <= 0 then None else Some(reported.(total := total))
  }

  // ---------------------------------------------------------------------------
  // The GROUP BY
  // ---------------------------------------------------------------------------

  datatype Key = Key(date: nat, providerId: Option<int>, snapshot: Option<string>)

  datatype LogRow = LogRow(key: Key, tokens: Tokens)

  /** A row of the grouped query has the same shape. */
  type Group = LogRow

  function SumOfKey(rows: seq<LogRow>, key: Key): Tokens {
    if rows == [] then NO_TOKENS
    else
      var rest := SumOfKey(rows[..|rows| - 1], key);
      if rows[|rows| - 1].key == key then Add(rest, rows[|rows| - 1].tokens) else rest
  }

  function SumOfDay(rows: seq<LogRow>, date: nat): Tokens {
    if rows == [] then NO_TOKENS
    else
      var rest := SumOfDay(rows[..|rows| - 1], date);
      if rows[|rows| - 1].key.date == date then Add(rest, rows[|rows| - 1].tokens) else rest
  }

  ghost predicate HasKey(rows: seq<LogRow>, key: Key) {
    exists i :: 0 <= i < |rows| && rows[i].key == key
  }

  /** `SELECT ..., SUM(...) GROUP BY ...`: one group per key that occurs, in any order. */
  ghost predicate IsGrouping(rows: seq<LogRow>, groups: seq<Group>) {
    && (forall i, j :: 0 <= i < j < |groups| ==> groups[i].key != groups[j].key)
    && (forall key :: HasKey(rows, key) <==> HasKey(groups, key))
    && (forall i :: 0 <= i < |groups| ==> groups[i].tokens == SumOfKey(rows, groups[i].key))
  }

  function Without(rows: seq<LogRow>, key: Key): seq<LogRow> {
    if rows == [] then []
    else Without(rows[..|rows| - 1], key) + if rows[|rows| - 1].key == key then [] else [rows[|rows| - 1]]
  }

  lemma SumsOfAppended(rows: seq<LogRow>, row: LogRow, key: Key, date: nat)
    ensures SumOfKey(rows + [row], key)
         == if row.key == key then Add(SumOfKey(rows, key), row.tokens) else SumOfKey(rows, key)
    ensures SumOfDay(rows + [row], date)
         == if row.key.date == date then Add(SumOfDay(rows, date), row.tokens) else SumOfDay(rows, date)
  {
  }

  lemma WithoutLast(rows: seq<LogRow>, key: Key)
    requires rows != []
    ensures var init, last := rows[..|rows| - 1], rows[|rows| - 1];
      && rows == init + [last]
      && Without(rows, key) == if last.key == key then Without(init, key) else Without(init, key) + [last]
  {
  }

  lemma {:induction false} KeySumWithout(rows: seq<LogRow>, key: Key, other: Key)
    ensures SumOfKey(Without(rows, key), other) == if other == key then NO_TOKENS else SumOfKey(rows, other)
  {
    if rows != [] {
      var init, last := rows[..|rows| - 1], rows[|rows| - 1];
      KeySumWithout(init, key, other);
      WithoutLast(rows, key);
      SumsOfAppended(Without(init, key), last, other, 0);
    }
  }

  /** A day's tokens are those of one group and those of the rest. */
  ghost predicate DaySplits(rows: seq<LogRow>, rest: seq<LogRow>, key: Key, date: nat) {
    SumOfDay(rows, date)
      == if key.date == date then Add(SumOfDay(rest, date), SumOfKey(rows, key)) else SumOfDay(rest, date)
  }

  lemma DaySplitsStep(init: seq<LogRow>, last: LogRow, rest: seq<LogRow>, key: Key, date: nat)
    requires DaySplits(init, rest, key, date)
    ensures DaySplits(init + [last], if last.key == key then rest else rest + [last], key, date)
  {
  }

  lemma {:induction false} DaySumWithout(rows: seq<LogRow>, key: Key, date: nat)
    ensures DaySplits(rows, Without(rows, key), key, date)
  {
    if rows != [] {
      hide DaySplits;
      var init, last := rows[..|rows| - 1], rows[|rows| - 1];
      DaySumWithout(init, key, date);
      DaySplitsStep(init, last, Without(init, key), key, date);
      WithoutLast(rows, key);
    }
  }

  lemma {:induction false} KeysWithout(rows: seq<LogRow>, key: Key, other: Key)
    ensures HasKey(Without(rows, key), other) <==> other != key && HasKey(rows, other)
  {
    if rows != [] {
      var init, last := rows[..|rows| - 1], rows[|rows| - 1];
      KeysWithout(init, key, other);
      KeyOfAppended(init, last, other);
      KeyOfAppended(Without(init, key), last, other);
      assert rows == init + [last] && Without(init, key) + [] == Without(init, key);
      hide HasKey;
    }
  }

  lemma KeyOfAppended(rows: seq<LogRow>, row: LogRow, key: Key)
    ensures HasKey(rows + [row], key) <==> HasKey(rows, key) || row.key == key
  {
    if HasKey(rows, key) {
      var i :| 0 <= i < |rows| && rows[i].key == key;
      assert (rows + [row])[i].key == key;
    }
    if row.key == key {
      assert (rows + [row])[|rows|].key == key;
    }
  }

  /** Grouping conserves every day's tokens. */
  lemma {:induction false} GroupingConserves(rows: seq<LogRow>, groups: seq<Group>, date: nat)
    requires IsGrouping(rows, groups)
    ensures SumOfDay(groups, date) == SumOfDay(rows, date)
    decreases |groups|
  {
    if groups == [] {
      assert |rows| > 0 ==> HasKey(rows, rows[0].key);
    } else {
      var init, last := groups[..|groups| - 1], groups[|groups| - 1];
      var rest := Without(rows, last.key);
      assert forall i :: 0 <= i < |init| ==> init[i] == groups[i] && init[i].key != last.key;
      forall key
        ensures HasKey(rest, key) <==> HasKey(init, key)
      {
        KeysWithout(rows, last.key, key);
        KeyOfAppended(init, last, key);
        assert groups == init + [last];
        assert HasKey(rows, key) <==> HasKey(groups, key);
      }
      forall i | 0 <= i < |init|
        ensures init[i].tokens == SumOfKey(rest, init[i].key)
      {
        KeySumWithout(rows, last.key, init[i].key);
      }
      GroupingConserves(rest, init, date);
      DaySumWithout(rows, last.key, date);
    }
  }

  // ---------------------------------------------------------------------------
  // The statistics
  // ---------------------------------------------------------------------------

  datatype Entry = Entry(providerId: Option<int>, name: string, tokens: Tokens)

  datatype Day = Day(date: nat, tokens: Tokens, providers: seq<Entry>)

  function ProviderName(key: Key, names: map<int, string>): string {
    if key.snapshot.Some? && key.snapshot.value != "" then key.snapshot.value
    else if key.providerId.Some? && key.providerId.value in names && names[key.providerId.value] != ""
    then names[key.providerId.value]
    else if key.providerId.Some? then "provider-" + PrintInt(key.providerId.value)
    else "deleted-provider"
  }

  /** A day lists its entries in the order of the groups, each with its own figures. */
  lemma {:induction false} EntriesInOrder(a: seq<Group>, b: seq<Group>, date: nat, names: map<int, string>)
    ensures EntriesOf(a + b, date, names) == EntriesOf(a, date, names) + EntriesOf(b, date, names)
    ensures |a| == 1 ==>
      EntriesOf(a, date, names) == if a[0].key.date != date then [] else
        [Entry(a[0].key.providerId, ProviderName(a[0].key, names), a[0].tokens)]
  {
    hide ProviderName;
    if b == [] {
      assert a + b == a;
      assert EntriesOf(a, date, names) + [] == EntriesOf(a, date, names);
    } else {
      var init, last := b[..|b| - 1], b[|b| - 1];
      EntriesInOrder(a, init, date, names);
      assert (a + b)[..|a + b| - 1] == a + init;
    }
  }

  /** An entry always has a name: the one recorded with the call, or else the provider's present
      one, or else one made from what is left of it. */
  lemma EveryEntryHasName(key: Key, names: map<int, string>)
    ensures var name := ProviderName(key, names);
      && name != ""
      && (key.snapshot.Some? && key.snapshot.value != "" ==> name == key.snapshot.value)
      && ((key.snapshot == None || key.snapshot == Some("")) && key.providerId.Some? ==>
            var id := key.providerId.value;
            name == if id in names && names[id] != "" then names[id] else "provider-" + PrintInt(id))
      && ((key.snapshot == None || key.snapshot == Some("")) && key.providerId == None ==> name == "deleted-provider")
  {
  }

  function SumOfEntries(entries: seq<Entry>): Tokens {
    if entries == [] then NO_TOKENS
    else Add(SumOfEntries(entries[..|entries| - 1]), entries[|entries| - 1].tokens)
  }

  ghost predicate HasDay(groups: seq<Group>, date: nat) {
    exists i :: 0 <= i < |groups| && groups[i].key.date == date
  }

  function EntriesOf(groups: seq<Group>, date: nat, names: map<int, string>): seq<Entry> {
    if groups == [] then []
    else
      var last := groups[|groups| - 1];
      EntriesOf(groups[..|groups| - 1], date, names)
      + if last.key.date == date then [Entry(last.key.providerId, ProviderName(last.key, names), last.tokens)] else []
  }

  /** `perDay` is what the accumulation loop has built from `groups`. */
  ghost predicate Accumulated(perDay: map<nat, Day>, groups: seq<Group>, names: map<int, string>) {
    && (forall date :: date in perDay <==> HasDay(groups, date))
    && (forall date :: date in perDay ==>
          perDay[date] == Day(date, SumOfDay(groups, date), EntriesOf(groups, date, names)))
  }

  method AccumulateDays(groups: seq<Group>, names: map<int, string>) returns (perDay: map<nat, Day>)
    ensures Accumulated(perDay, groups, names)
  {
    perDay := map[];
    for i := 0 to |groups|
      invariant Accumulated(perDay, groups[..i], names)
    {
      var g := groups[i];
      var date := g.key.date;
      DayOfAppended(groups, i, names);
      var day := if date in perDay then perDay[date] else Day(date, NO_TOKENS, []);
      day := day.(tokens := Add(day.tokens, g.tokens));
      day := day.(providers := day.providers + [Entry(g.key.providerId, ProviderName(g.key, names), g.tokens)]);
      perDay := perDay[date := day];
    }
    assert groups[..|groups|] == groups;
  }

  lemma DayOfAppended(groups: seq<Group>, i: nat, names: map<int, string>)
    requires i < |groups|
    ensures forall date :: HasDay(groups[..i + 1], date) <==> HasDay(groups[..i], date) || groups[i].key.date == date
    ensures groups[..i + 1][..i] == groups[..i]
    ensures !HasDay(groups[..i], groups[i].key.date) ==>
      SumOfDay(groups[..i], groups[i].key.date) == NO_TOKENS && EntriesOf(groups[..i], groups[i].key.date, names) == []
  {
    var before, after := groups[..i], groups[..i + 1];
    assert after[i] == groups[i];
    forall date | HasDay(before, date)
      ensures HasDay(after, date)
    {
      var j :| 0 <= j < |before| && before[j].key.date == date;
      assert after[j].key.date == date;
    }
    forall date | HasDay(after, date)
      ensures HasDay(before, date) || groups[i].key.date == date
    {
      var j :| 0 <= j < |after| && after[j].key.date == date;
      assert j < i ==> before[j].key.date == date;
    }
    if !HasDay(before, groups[i].key.date) {
      AbsentDay(before, groups[i].key.date, names);
    }
  }

  lemma {:induction false} AbsentDay(groups: seq<Group>, date: nat, names: map<int, string>)
    requires !HasDay(groups, date)
    ensures SumOfDay(groups, date) == NO_TOKENS && EntriesOf(groups, date, names) == []
  {
    if groups != [] {
      var init := groups[..|groups| - 1];
      assert groups[|groups| - 1].key.date != date;
      assert !HasDay(init, date) by {
        assert forall j :: 0 <= j < |init| ==> groups[j] == init[j];
      }
      AbsentDay(init, date, names);
    }
  }

  /** `[per_day[key] for key in sorted(per_day, reverse=True)]` */
  method NewestFirst(perDay: map<nat, Day>) returns (days: seq<Day>)
    requires forall date :: date in perDay ==> perDay[date].date == date
    ensures forall i :: 0 <= i < |days| ==> days[i].date in perDay && days[i] == perDay[days[i].date]
    ensures forall i, j :: 0 <= i < j < |days| ==> days[i].date > days[j].date
    ensures forall date :: date in perDay ==> exists i :: 0 <= i < |days| && days[i].date == date
  {
    days := [];
    var rest := perDay.Keys;
    while rest != {}
      invariant rest <= perDay.Keys
      invariant forall i :: 0 <= i < |days| ==> days[i].date in perDay && days[i] == perDay[days[i].date]
      invariant forall i, j :: 0 <= i < j < |days| ==> days[i].date > days[j].date
      invariant forall i, date :: 0 <= i < |days| && date in rest ==> date < days[i].date
      invariant forall date :: date in perDay && date !in rest ==> exists i :: 0 <= i < |days| && days[i].date == date
      decreases rest
    {
      var newest := Newest(rest);
      rest := rest - {newest};
      ghost var before := days;
      days := days + [perDay[newest]];
      assert days[|before|].date == newest;
      assert forall i :: 0 <= i < |before| ==> days[i] == before[i];
    }
  }

  method Newest(dates: set<nat>) returns (newest: nat)
    requires dates != {}
    ensures newest in dates && forall date :: date in dates ==> date <= newest
  {
    newest :| newest in dates;
    var rest := dates - {newest};
    while rest != {}
      invariant rest <= dates && newest in dates
      invariant forall date :: date in dates && date !in rest ==> date <= newest
      decreases rest
    {
      var date :| date in rest;
      if date > newest {
        newest := date;
      }
      rest := rest - {date};
    }
  }

  method GetDailyUsageStats(groups: seq<Group>, names: map<int, string>) returns (days: seq<Day>)
    ensures forall i, j :: 0 <= i < j < |days| ==> days[i].date > days[j].date
    ensures forall date :: HasDay(groups, date) <==> exists i :: 0 <= i < |days| && days[i].date == date
    ensures forall i :: 0 <= i < |days| ==>
      days[i] == Day(days[i].date, SumOfDay(groups, days[i].date), EntriesOf(groups, days[i].date, names))
  {
    var perDay := AccumulateDays(groups, names);
    days := NewestFirst(perDay);
    forall date
      ensures HasDay(groups, date) <==> exists i :: 0 <= i < |days| && days[i].date == date
    {
      assert HasDay(groups, date) <==> date in perDay;
    }
  }

  lemma {:induction false} EntriesSumUp(groups: seq<Group>, date: nat, names: map<int, string>)
    ensures SumOfEntries(EntriesOf(groups, date, names)) == SumOfDay(groups, date)
  {
    if groups != [] {
      EntriesSumUp(groups[..|groups| - 1], date, names);
      var init, last := EntriesOf(groups[..|groups| - 1], date, names), groups[|groups| - 1];
      if last.key.date == date {
        var entry := Entry(last.key.providerId, ProviderName(last.key, names), last.tokens);
        assert (init + [entry])[..|init|] == init;
      } else {
        assert init + [] == init;
      }
    }
  }

  /** The first day of a window of `days` days that ends today. */
  function WindowStart(today: nat, days: int): int {
    today - if days >= 1 then days - 1 else 0
  }

  /** A window of at least one day holds exactly that many, today's the last of them. */
  lemma WindowHolds(today: nat, days: int, date: int)
    requires date <= today
    ensures date >= WindowStart(today, days) <==> today - date < days || (days < 1 && date == today)
  {
  }

  function Recent(rows: seq<LogRow>, start: int): seq<LogRow> {
    if rows == [] then []
    else Recent(rows[..|rows| - 1], start) + if rows[|rows| - 1].key.date >= start then [rows[|rows| - 1]] else []
  }

  lemma {:induction false} WindowKeepsDays(rows: seq<LogRow>, start: int, date: nat)
    ensures SumOfDay(Recent(rows, start), date) == if date >= start then SumOfDay(rows, date) else NO_TOKENS
  {
    if rows != [] {
      var init, last := Recent(rows[..|rows| - 1], start), rows[|rows| - 1];
      WindowKeepsDays(rows[..|rows| - 1], start, date);
      SumsOfAppended(init, last, last.key, date);
      assert init + [] == init;
    }
  }

  /** For every usage log and however the database orders the groups: the figures of a day in
      the window are the sum of the day's log rows and the sum of its provider entries, and no
      other day has figures. */
  lemma DailyFiguresAddUp(
    rows: seq<LogRow>, today: nat, days: int, groups: seq<Group>, names: map<int, string>, date: nat)
    requires IsGrouping(Recent(rows, WindowStart(today, days)), groups)
    ensures SumOfDay(groups, date) == SumOfEntries(EntriesOf(groups, date, names))
    ensures SumOfDay(groups, date) == if date >= WindowStart(today, days) then SumOfDay(rows, date) else NO_TOKENS
  {
    GroupingConserves(Recent(rows, WindowStart(today, days)), groups, date);
    WindowKeepsDays(rows, WindowStart(today, days), date);
    EntriesSumUp(groups, date, names);
  }
}
