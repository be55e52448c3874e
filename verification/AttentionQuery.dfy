/** The attention filter of an event search: a SQL condition with three truth values against the
    Python predicate that labels the results. */
module AttentionQuery {
  import opened Outcomes

  /** How Python prints a number that PostgreSQL accepts in JSON. One too large for a float, like
      1e400, has become infinity. */
  type NumberText = s: string | s == INFINITY || (s != "" && (s[0] == '-' || '0' <= s[0] <= '9')) witness "0"

  const INFINITY := "inf"

  datatype Json =
    | Null
    | Bool(value: bool)
    | Number(text: NumberText)
    | Text(chars: string)
    | Array(items: seq<Json>)
    | Object(fields: map<string, Json>)

  /** A JSON column holds an array or SQL NULL. */
  datatype Event = Event(id: int, eventType: Option<string>, entities: Option<seq<Json>>, focus: Option<seq<Json>>)

  const ATTENTION_EVENT_TYPES: set<string> := {"unknown_person_appear", "abnormal_stay", "scene_attention_needed"}

  const UNKNOWN_PERSON := "unknown_person"

  // ---------------------------------------------------------------------------
  // The Python predicate
  // ---------------------------------------------------------------------------

  predicate Falsy(j: Json) {
    match j
    case Null => true
    case Bool(b) => !b
    case Number(text) => text in {"0", "-0", "0.0", "-0.0"}
    case Text(s) => s == ""
    case Array(items) => items == []
    case Object(fields) => fields == map[]
  }

  /** `str(j)`; only the opening bracket of a container is kept, which is all that a comparison
      with a key or a type name can see. */
  function PyStr(j: Json): string {
    match j
    case Null => "None"
    case Bool(b) => if b then "True" else "False"
    case Number(text) => text
    case Text(s) => s
    case Array(_) => "["
    case Object(_) => "{"
  }

  predicate IsUnknownPerson(entity: Json) {
    entity.Object?
    && var kind := if "entity_type" in entity.fields then entity.fields["entity_type"] else Null;
      (if Falsy(kind) then "" else PyStr(kind)) == UNKNOWN_PERSON
  }

  predicate HasUnknownPerson(entities: Option<seq<Json>>) {
    entities.Some? && exists i :: 0 <= i < |entities.value| && IsUnknownPerson(entities.value[i])
  }

  predicate IsAttentionEvent(e: Event, keys: set<string>) {
    || (if e.eventType.Some? then e.eventType.value else "") in ATTENTION_EVENT_TYPES
    || HasUnknownPerson(e.entities)
    || (keys != {} && e.focus.Some? && exists i :: 0 <= i < |e.focus.value| && PyStr(e.focus.value[i]) in keys)
  }

  // ---------------------------------------------------------------------------
  // The SQL condition
  // ---------------------------------------------------------------------------

  datatype Truth = True | False | Unknown

  function Or(a: Truth, b: Truth): Truth {
    if a.True? || b.True? then True else if a.Unknown? || b.Unknown? then Unknown else False
  }

  function Not(a: Truth): Truth {
    match a case True => False case False => True case Unknown => Unknown
  }

  function Of(b: bool): Truth {
    if b then True else False
  }

  /** `e->>'entity_type' = 'unknown_person'`: text only of a field of an object. */
  function SqlEntityMatches(entity: Json): Truth {
    if !entity.Object? || "entity_type" !in entity.fields || entity.fields["entity_type"].Null? then Unknown
    else Of(entity.fields["entity_type"] == Text(UNKNOWN_PERSON))
  }

  /** `EXISTS (SELECT 1 FROM json_array_elements(...) e WHERE ...)` is never unknown. */
  function SqlHasUnknownPerson(entities: Option<seq<Json>>): Truth {
    Of(entities.Some? && exists i :: 0 <= i < |entities.value| && SqlEntityMatches(entities.value[i]) == True)
  }

  /** `focus ?| array[keys]`: some element is one of these strings. */
  function SqlFocusMatches(focus: Option<seq<Json>>, keys: set<string>): Truth {
    if focus.None? then Unknown
    else Of(exists i :: 0 <= i < |focus.value| && focus.value[i].Text? && focus.value[i].chars in keys)
  }

  function AttentionCondition(e: Event, keys: set<string>): Truth {
    var typeMatches := if e.eventType.None? then Unknown else Of(e.eventType.value in ATTENTION_EVENT_TYPES);
    var withEntities := Or(typeMatches, SqlHasUnknownPerson(e.entities));
    if keys == {} then withEntities else Or(withEntities, SqlFocusMatches(e.focus, keys))
  }

  // ---------------------------------------------------------------------------
  // Agreement
  // ---------------------------------------------------------------------------

  /** The validated format of a focus key: `^[a-z][a-z0-9_]{0,63}$`. */
  predicate IsKey(key: string) {
    && 1 <= |key| <= 64 && 'a' <= key[0] <= 'z'
    && forall i :: 1 <= i < |key| ==> 'a' <= key[i] <= 'z' || '0' <= key[i] <= '9' || key[i] == '_'
  }

  ghost predicate AreKeys(keys: set<string>) {
    forall key :: key in keys ==> IsKey(key)
  }

  lemma EntityAgrees(entity: Json)
    ensures SqlEntityMatches(entity) == True <==> IsUnknownPerson(entity)
  {
  }

  /** Only a string can print as a key, but for infinity. */
  lemma OnlyTextIsKey(j: Json, key: string)
    requires IsKey(key)
    ensures PyStr(j) == key <==> j == Text(key) || (j == Number(INFINITY) && key == INFINITY)
  {
  }

  /** What makes an event one for attention: its type, an unknown person among its entities, or a
      focus key among its matches, as text or as an infinity. */
  lemma AttentionMeans(e: Event, keys: set<string>)
    requires AreKeys(keys)
    ensures IsAttentionEvent(e, keys) <==>
      || (e.eventType.Some? && e.eventType.value in {"unknown_person_appear", "abnormal_stay", "scene_attention_needed"})
      || (e.entities.Some? && exists i ::
            && 0 <= i < |e.entities.value|
            && e.entities.value[i].Object? && "entity_type" in e.entities.value[i].fields
            && e.entities.value[i].fields["entity_type"] == Text("unknown_person"))
      || (e.focus.Some? && exists i ::
            && 0 <= i < |e.focus.value|
            && (e.focus.value[i].Text? || e.focus.value[i] == Number("inf")) && PyStr(e.focus.value[i]) in keys)
  {
  }

  /** The label rests on an infinite number alone that prints as one of the keys. */
  predicate OnlyInfinity(e: Event, keys: set<string>) {
    && INFINITY in keys && e.focus.Some? && Number(INFINITY) in e.focus.value
    && !(e.eventType.Some? && e.eventType.value in ATTENTION_EVENT_TYPES) && !HasUnknownPerson(e.entities)
    && !exists i :: 0 <= i < |e.focus.value| && e.focus.value[i].Text? && e.focus.value[i].chars in keys
  }

  predicate Attends(e: Event, keys: set<string>) {
    IsAttentionEvent(e, keys) && !OnlyInfinity(e, keys)
  }

  /** What a negated filter silently loses: a row that is no attention event, but for which the
      database cannot tell. */
  predicate Undecided(e: Event, keys: set<string>) {
    !Attends(e, keys) && (e.eventType.None? || (keys != {} && e.focus.None?))
  }

  /** The SQL condition, value by value: true exactly for the attention events that do not rest
      on an infinity, unknown exactly for other events with a NULL that the condition looks at,
      false for the rest. */
  lemma ConditionMeans(e: Event, keys: set<string>)
    requires AreKeys(keys)
    ensures AttentionCondition(e, keys) == True <==> Attends(e, keys)
    ensures AttentionCondition(e, keys) == Unknown <==> Undecided(e, keys)
  {
  }

  /** So the condition and the label agree on all events exactly when `inf` is not a focus key. */
  lemma AgreeUnlessInfinityIsKey(keys: set<string>)
    requires AreKeys(keys)
    ensures (forall e :: AttentionCondition(e, keys) == True <==> IsAttentionEvent(e, keys)) <==> INFINITY !in keys
  {
    forall e
      ensures AttentionCondition(e, keys) == True <==> Attends(e, keys)
    {
      ConditionMeans(e, keys);
    }
    if INFINITY in keys {
      var e := Event(0, None, None, Some([Number(INFINITY)]));
      assert PyStr(e.focus.value[0]) in keys;
      assert IsAttentionEvent(e, keys) && OnlyInfinity(e, keys);
    }
  }

  // ---------------------------------------------------------------------------
  // The search
  // ---------------------------------------------------------------------------

  datatype EventResult = EventResult(id: int, attention: bool, subjects: seq<Json>)

  /** `entity.get(...)` on something that is no object. */
  datatype SearchError = AttributeError

  function Filter(rows: seq<Event>, keep: Event -> bool): seq<Event> {
    if rows == [] then []
    else Filter(rows[..|rows| - 1], keep) + if keep(rows[|rows| - 1]) then [rows[|rows| - 1]] else []
  }

  function Take(rows: seq<Event>, limit: nat): seq<Event> {
    if |rows| <= limit then rows else rows[..limit]
  }

  predicate Readable(e: Event) {
    e.entities.None? || forall i :: 0 <= i < |e.entities.value| ==> e.entities.value[i].Object?
  }

  predicate AllReadable(rows: seq<Event>) {
    forall i :: 0 <= i < |rows| ==> Readable(rows[i])
  }

  function Get(entity: Json, name: string): Json
    requires entity.Object?
  {
    if name in entity.fields then entity.fields[name] else Null
  }

  /** The matched profile's name, else the displayed one, unless both are empty. */
  function Subject(entity: Json): seq<Json>
    requires entity.Object?
  {
    var matched := Get(entity, "matched_profile_name");
    var name := if Falsy(matched) then Get(entity, "display_name") else matched;
    if Falsy(name) then [] else [name]
  }

  function Subjects(entities: seq<Json>): seq<Json>
    requires forall i :: 0 <= i < |entities| ==> entities[i].Object?
  {
    if entities == [] then []
    else Subjects(entities[..|entities| - 1]) + Subject(entities[|entities| - 1])
  }

  function Labelled(rows: seq<Event>, keys: set<string>): (results: seq<EventResult>)
    requires AllReadable(rows)
    ensures |results| == |rows|
  {
    seq(|rows|, i requires 0 <= i < |rows| =>
      EventResult(rows[i].id, IsAttentionEvent(rows[i], keys),
                  if rows[i].entities.Some? then Subjects(rows[i].entities.value) else []))
  }

  /** A selection keeps the order of the rows and decides each for itself. */
  lemma {:induction false} SelectedInOrder(
    a: seq<Event>, b: seq<Event>, others: Event -> bool, attention: Option<bool>, keys: set<string>)
    ensures Selected(a + b, others, attention, keys)
         == Selected(a, others, attention, keys) + Selected(b, others, attention, keys)
    ensures |a| == 1 ==>
      Selected(a, others, attention, keys) == if others(a[0]) && Passes(a[0], attention, keys) then a else []
  {
    hide Passes;
    if b == [] {
      assert a + b == a;
    } else {
      SelectedInOrder(a, b[..|b| - 1], others, attention, keys);
      assert (a + b)[..|a + b| - 1] == a + b[..|b| - 1];
    }
    if |a| == 1 {
      assert a[..0] == [] && a == [a[0]];
    }
  }

  /** The results of a search, one by one: the first rows of the selection, each with its own label
      and with one name per entity that has one, the matched profile's before the displayed one. */
  lemma ResultsTell(rows: seq<Event>, limit: nat, keys: set<string>, i: nat)
    requires i < |rows| && i < limit && AllReadable(Take(rows, limit))
    ensures |Take(rows, limit)| == if |rows| < limit then |rows| else limit
    ensures i < |Labelled(Take(rows, limit), keys)|
    ensures var r := Labelled(Take(rows, limit), keys)[i];
      && r.id == rows[i].id && (r.attention <==> IsAttentionEvent(rows[i], keys))
      && (rows[i].entities.None? ==> r.subjects == [])
      && (rows[i].entities.Some? ==>
            && (forall k :: 0 <= k < |rows[i].entities.value| ==> rows[i].entities.value[k].Object?)
            && r.subjects == Subjects(rows[i].entities.value))
  {
  }

  /** Python's `bool(j)` */
  predicate Truthy(j: Json) {
    && j != Null && j != Bool(false) && j != Text("") && j != Array([]) && j != Object(map[])
    && (j.Number? ==> j.text != "0" && j.text != "-0" && j.text != "0.0" && j.text != "-0.0")
  }

  lemma TruthyMeans(j: Json)
    ensures Truthy(j) <==> !Falsy(j)
  {
  }

  /** The first of the two names that is truthy. */
  predicate IsNameOf(entity: Json, name: Json) {
    && entity.Object? && Truthy(name)
    && if "matched_profile_name" in entity.fields && Truthy(entity.fields["matched_profile_name"])
       then name == entity.fields["matched_profile_name"]
       else "display_name" in entity.fields && name == entity.fields["display_name"]
  }

  /** Appending an entity adds its name, if it has one, behind the names of the others. */
  lemma SubjectsAreNames(entities: seq<Json>, entity: Json, name: Json)
    requires entity.Object? && forall i :: 0 <= i < |entities| ==> entities[i].Object?
    ensures IsNameOf(entity, name) ==> Subjects(entities + [entity]) == Subjects(entities) + [name]
    ensures (forall n :: !IsNameOf(entity, n)) ==> Subjects(entities + [entity]) == Subjects(entities)
  {
    hide Truthy, Falsy;
    assert (entities + [entity])[..|entities|] == entities;
    var matched, displayed := Get(entity, "matched_profile_name"), Get(entity, "display_name");
    TruthyMeans(Null);
    TruthyMeans(matched);
    TruthyMeans(displayed);
    NullIsFalsy();
    assert forall n :: IsNameOf(entity, n) ==> n == matched || n == displayed;
    assert Subject(entity) != [] ==> IsNameOf(entity, Subject(entity)[0]);
  }

  lemma NullIsFalsy()
    ensures !Truthy(Null)
  {
  }

  /** A WHERE clause keeps a row only if its condition is true, not if it is unknown. */
  predicate Passes(e: Event, attention: Option<bool>, keys: set<string>) {
    attention.None?
    || (if attention.value then AttentionCondition(e, keys) else Not(AttentionCondition(e, keys))) == True
  }

  /** The rows that the WHERE clause lets through, `others` standing for its other filters. */
  function Selected(rows: seq<Event>, others: Event -> bool, attention: Option<bool>, keys: set<string>): seq<Event> {
    Filter(rows, (e: Event) => others(e) && Passes(e, attention, keys))
  }

  class HomeQueryService {
    var attentionCache: Option<set<string>>

    constructor ()
      ensures attentionCache == None
    {
      attentionCache := None;
    }

    /** `current` is what the profile in the database says at the time of the call. */
    method AttentionKeys(current: set<string>) returns (keys: set<string>)
      modifies this
      ensures keys == if old(attentionCache).Some? then old(attentionCache).value else current
      ensures attentionCache == Some(keys)
    {
      if attentionCache.None? {
        attentionCache := Some(current);
      }
      return attentionCache.value;
    }

    /** `rows` is the table in the order of the query. The profile may change between the filter
        and the labels; the cache makes both use the same keys. The search raises exactly when a
        row that it would return holds an entity that is no object. */
    method SearchEvents(
      rows: seq<Event>, others: Event -> bool, attention: Option<bool>, limit: nat,
      whenFiltering: set<string>, whenLabelling: set<string>)
      returns (r: Result<seq<EventResult>, SearchError>, ghost keys: set<string>)
      modifies this
      ensures old(attentionCache).Some? ==> keys == old(attentionCache).value
      ensures old(attentionCache).None? ==> keys == if attention.Some? then whenFiltering else whenLabelling
      ensures attentionCache.Some? ==> attentionCache.value == keys
      ensures var selected := Take(Selected(rows, others, attention, keys), limit);
        && (r.Ok? <==> AllReadable(selected))
        && (r.Ok? ==> r.value == Labelled(selected, keys))
    {
      hide AttentionCondition, IsAttentionEvent, Readable, Subjects, Subject, Of, Or;
      var filterKeys := {};
      if attention.Some? {
        filterKeys := AttentionKeys(whenFiltering);
      }
      keys := if attentionCache.Some? then attentionCache.value else whenLabelling;
      var selected: seq<Event> := [];
      for i := 0 to |rows|
        invariant selected == Selected(rows[..i], others, attention, keys)
      {
        assert rows[..i + 1][..i] == rows[..i];
        var e := rows[i];
        var keep := others(e);
        if attention.Some? {
          var condition := AttentionCondition(e, filterKeys);
          keep := keep && (if attention.value then condition else Not(condition)) == True;
        }
        selected := selected + if keep then [e] else [];
      }
      assert rows[..|rows|] == rows;
      selected := Take(selected, limit);
      var results: seq<EventResult> := [];
      for i := 0 to |selected|
        invariant AllReadable(selected[..i]) && results == Labelled(selected[..i], keys)
        invariant attentionCache.Some? ==> attentionCache.value == keys
        invariant attentionCache.None? ==> keys == whenLabelling
      {
        var subjects := SubjectsOfRow(selected[i]);
        if subjects.Err? {
          assert !Readable(selected[i]);
          return Err(AttributeError), keys;
        }
        var current := AttentionKeys(whenLabelling);
        results := results + [EventResult(selected[i].id, IsAttentionEvent(selected[i], current), subjects.value)];
      }
      assert selected[..|selected|] == selected;
      r := Ok(results);
    }

    /** The loop over the entities of one row. */
    method SubjectsOfRow(e: Event) returns (r: Result<seq<Json>, SearchError>)
      ensures r.Ok? <==> Readable(e)
      ensures r.Ok? ==> r.value == if e.entities.Some? then Subjects(e.entities.value) else []
    {
      if e.entities.None? {
        return Ok([]);
      }
      var entities, subjects := e.entities.value, [];
      for i := 0 to |entities|
        invariant forall j :: 0 <= j < i ==> entities[j].Object?
        invariant subjects == Subjects(entities[..i])
      {
        if !entities[i].Object? {
          return Err(AttributeError);
        }
        assert entities[..i + 1][..i] == entities[..i];
        subjects := subjects + Subject(entities[i]);
      }
      assert entities[..|entities|] == entities;
      return Ok(subjects);
    }
  }

  lemma PassesMeans(e: Event, keys: set<string>)
    requires AreKeys(keys)
    ensures Passes(e, Some(true), keys) <==> Attends(e, keys)
    ensures Passes(e, Some(false), keys) <==> !Attends(e, keys) && !Undecided(e, keys)
  {
  }

  lemma {:induction false} FiltersAgree(rows: seq<Event>, p: Event -> bool, q: Event -> bool)
    requires forall e :: p(e) == q(e)
    ensures Filter(rows, p) == Filter(rows, q)
  {
    if rows != [] {
      FiltersAgree(rows[..|rows| - 1], p, q);
    }
  }

  lemma {:induction false} FilterKeeps(rows: seq<Event>, p: Event -> bool)
    ensures forall i :: 0 <= i < |Filter(rows, p)| ==> p(Filter(rows, p)[i])
  {
    if rows != [] {
      FilterKeeps(rows[..|rows| - 1], p);
    }
  }

  /** `attention=true` selects exactly the attention events among the otherwise selected rows, but
      those that rest on an infinity, in their order, and every result is labelled so. */
  lemma SearchForAttention(rows: seq<Event>, others: Event -> bool, keys: set<string>, limit: nat)
    requires AreKeys(keys)
    ensures var selected := Selected(rows, others, Some(true), keys);
      && selected == Filter(rows, (e: Event) => others(e) && Attends(e, keys))
      && (AllReadable(Take(selected, limit)) ==>
            forall i :: 0 <= i < |Take(selected, limit)| ==> Labelled(Take(selected, limit), keys)[i].attention)
  {
    var p := (e: Event) => others(e) && Attends(e, keys);
    var q := (e: Event) => others(e) && Passes(e, Some(true), keys);
    forall e
      ensures p(e) == q(e)
    {
      PassesMeans(e, keys);
    }
    FiltersAgree(rows, p, q);
    FilterKeeps(rows, p);
  }

  /** `attention=false` selects the other events except the undecided ones, and a result is
      labelled as an attention event exactly when it rests on an infinity. */
  lemma SearchForTheRest(rows: seq<Event>, others: Event -> bool, keys: set<string>, limit: nat)
    requires AreKeys(keys)
    ensures var selected := Selected(rows, others, Some(false), keys);
      && selected == Filter(rows, (e: Event) => others(e) && !Attends(e, keys) && !Undecided(e, keys))
      && (AllReadable(Take(selected, limit)) ==>
            forall i :: 0 <= i < |Take(selected, limit)| ==>
              (Labelled(Take(selected, limit), keys)[i].attention <==> OnlyInfinity(Take(selected, limit)[i], keys)))
  {
    var p := (e: Event) => others(e) && !Attends(e, keys) && !Undecided(e, keys);
    var q := (e: Event) => others(e) && Passes(e, Some(false), keys);
    forall e
      ensures p(e) == q(e)
    {
      PassesMeans(e, keys);
    }
    FiltersAgree(rows, p, q);
    FilterKeeps(rows, p);
    forall e | OnlyInfinity(e, keys)
      ensures IsAttentionEvent(e, keys)
    {
      InfinityIsLabelled(e, keys);
    }
  }

  lemma InfinityIsLabelled(e: Event, keys: set<string>)
    requires OnlyInfinity(e, keys)
    ensures IsAttentionEvent(e, keys)
  {
  }

  /** Nothing is selected by both searches, and together they miss exactly the undecided rows. */
  lemma {:induction false} TheTwoSearchesPartition(rows: seq<Event>, others: Event -> bool, keys: set<string>)
    requires AreKeys(keys)
    ensures |Selected(rows, others, None, keys)|
         == |Selected(rows, others, Some(true), keys)| + |Selected(rows, others, Some(false), keys)|
            + |Filter(rows, (e: Event) => others(e) && Undecided(e, keys))|
  {
    if rows != [] {
      TheTwoSearchesPartition(rows[..|rows| - 1], others, keys);
      PassesMeans(rows[|rows| - 1], keys);
    }
  }
}
