/** The recursive JSON-safety check every outbox payload passes before it is stored.

    `EnsureJsonSafe` walks a Python value with local accumulators, as the source does. Its
    contract is stated against three independent notions: `Clean` (only allowed leaves and
    string keys), `Height` (how deeply containers nest) and `Collapse` (the tuple-free copy). */
module PayloadValidator {
  import opened Outcomes

  datatype Atom =
    | NoneAtom
    | BoolAtom(b: bool)
    | IntAtom(i: int)
    | FloatAtom(r: real)
    | StrAtom(s: string)
    | UuidAtom(hex: string)
    | DatetimeAtom(iso: string)
    | DateAtom(iso: string)

  datatype Key = StrKey(name: string) | OtherKey(typeName: string)

  datatype Entry = Entry(key: Key, value: Value)

  datatype Value =
    | Leaf(atom: Atom)
    | ListValue(items: seq<Value>)
    | TupleValue(items: seq<Value>)
    | DictValue(entries: seq<Entry>)
    | Foreign(typeName: string) // bytes, set, any other object

  datatype Segment = Root(name: string) | Index(i: nat) | Field(name: string)

  datatype ErrorKind = TooDeep | NonStringKey | NonJsonType | TooLarge

  datatype PayloadError = PayloadError(kind: ErrorKind, path: seq<Segment>)

  const DEFAULT_MAX_PAYLOAD_DEPTH := 8
  const DEFAULT_MAX_PAYLOAD_BYTES := 32 * 1024

  predicate IsContainer(v: Value) {
    v.ListValue? || v.TupleValue? || v.DictValue?
  }

  // ---------------------------------------------------------------------------
  // What the check is about
  // ---------------------------------------------------------------------------

  predicate StringKeys(entries: seq<Entry>) {
    forall i :: 0 <= i < |entries| ==> entries[i].key.StrKey?
  }

  /** Every leaf is an allowed atom and every dict key is a string. */
  predicate Clean(v: Value) {
    match v
    case Leaf(_) => true
    case ListValue(items) => forall i :: 0 <= i < |items| ==> Clean(items[i])
    case TupleValue(items) => forall i :: 0 <= i < |items| ==> Clean(items[i])
    case DictValue(entries) =>
      StringKeys(entries) && forall i :: 0 <= i < |entries| ==> Clean(entries[i].value)
    case Foreign(_) => false
  }

  /** What the JSON column takes: no leaf that Python's JSON encoder refuses, and no NUL
      character, which PostgreSQL refuses. The validator checks neither. */
  predicate Storable(v: Value) {
    match v
    case Leaf(atom) =>
      !atom.UuidAtom? && !atom.DatetimeAtom? && !atom.DateAtom? && (atom.StrAtom? ==> '\0' !in atom.s)
    case ListValue(items) => forall i :: 0 <= i < |items| ==> Storable(items[i])
    case TupleValue(items) => forall i :: 0 <= i < |items| ==> Storable(items[i])
    case DictValue(entries) =>
      forall i :: 0 <= i < |entries| ==>
        (entries[i].key.StrKey? ==> '\0' !in entries[i].key.name) && Storable(entries[i].value)
    case Foreign(_) => false
  }

  function Max(a: nat, b: nat): nat {
    if a < b then b else a
  }

  /** The number of containers on the deepest path through `v`. */
  function Height(v: Value): nat {
    match v
    case Leaf(_) => 0
    case ListValue(items) => 1 + HeightOfItems(items)
    case TupleValue(items) => 1 + HeightOfItems(items)
    case DictValue(entries) => 1 + HeightOfEntries(entries)
    case Foreign(_) => 0
  }

  function HeightOfItems(items: seq<Value>): nat {
    if items == [] then 0 else Max(Height(items[0]), HeightOfItems(items[1..]))
  }

  function HeightOfEntries(entries: seq<Entry>): nat {
    if entries == [] then 0 else Max(HeightOfEntry(entries[0]), HeightOfEntries(entries[1..]))
  }

  function HeightOfEntry(entry: Entry): nat {
    Height(entry.value)
  }

  /** The tuple-free copy of a value. */
  function Collapse(v: Value): Value {
    match v
    case Leaf(_) => v
    case ListValue(items) => ListValue(CollapseItems(items))
    case TupleValue(items) => ListValue(CollapseItems(items))
    case DictValue(entries) => DictValue(CollapseEntries(entries))
    case Foreign(_) => v
  }

  function CollapseItems(items: seq<Value>): (r: seq<Value>)
    ensures |r| == |items|
    ensures forall i :: 0 <= i < |items| ==> r[i] == Collapse(items[i])
  {
    if items == [] then [] else [Collapse(items[0])] + CollapseItems(items[1..])
  }

  function CollapseEntries(entries: seq<Entry>): (r: seq<Entry>)
    ensures |r| == |entries|
    ensures forall i :: 0 <= i < |entries| ==> r[i] == CollapseEntry(entries[i])
  {
    if entries == [] then []
    else [CollapseEntry(entries[0])] + CollapseEntries(entries[1..])
  }

  function CollapseEntry(entry: Entry): Entry {
    Entry(entry.key, Collapse(entry.value))
  }

  predicate TupleFree(v: Value) {
    match v
    case Leaf(_) => true
    case ListValue(items) => forall i :: 0 <= i < |items| ==> TupleFree(items[i])
    case TupleValue(_) => false
    case DictValue(entries) => forall i :: 0 <= i < |entries| ==> TupleFree(entries[i].value)
    case Foreign(_) => true
  }

  /** A value met at `depth` fits when its deepest container is met at `maxDepth` or above. */
  predicate Fits(v: Value, depth: int, maxDepth: int) {
    Height(v) == 0 || depth + Height(v) - 1 <= maxDepth
  }

  predicate Acceptable(v: Value, depth: int, maxDepth: int) {
    Clean(v) && Fits(v, depth, maxDepth)
  }

  /** `rel` leads from `v` to the first value, in visiting order, that breaks a rule, and
      `kind` is the rule it breaks there. */
  ghost predicate FirstOffence(v: Value, rel: seq<Segment>, depth: int, maxDepth: int, kind: ErrorKind)
    decreases v
  {
    if rel == [] then
      (kind == TooDeep && IsContainer(v) && depth > maxDepth)
      || (kind == NonStringKey && v.DictValue? && depth <= maxDepth && !StringKeys(v.entries))
      || (kind == NonJsonType && v.Foreign?)
    else
      && depth <= maxDepth
      && match v {
        case ListValue(items) => FirstOffenceInItems(items, rel, depth, maxDepth, kind)
        case TupleValue(items) => FirstOffenceInItems(items, rel, depth, maxDepth, kind)
        case DictValue(entries) =>
          && StringKeys(entries)
          && exists j ::
            && 0 <= j < |entries|
            && entries[j].key.StrKey?
            && rel[0] == Field(entries[j].key.name)
            && (forall i :: 0 <= i < j ==> Acceptable(entries[i].value, depth + 1, maxDepth))
            && FirstOffence(entries[j].value, rel[1..], depth + 1, maxDepth, kind)
        case _ => false
      }
  }

  ghost predicate FirstOffenceInItems(items: seq<Value>, rel: seq<Segment>, depth: int, maxDepth: int, kind: ErrorKind)
    requires rel != []
    decreases items
  {
    && rel[0].Index?
    && rel[0].i < |items|
    && (forall i :: 0 <= i < rel[0].i ==> Acceptable(items[i], depth + 1, maxDepth))
    && FirstOffence(items[rel[0].i], rel[1..], depth + 1, maxDepth, kind)
  }

  // ---------------------------------------------------------------------------
  // Heights bound depths
  // ---------------------------------------------------------------------------

  lemma {:induction false} HeightOfItemsIsMax(items: seq<Value>, k: nat)
    ensures HeightOfItems(items) <= k <==> forall i :: 0 <= i < |items| ==> Height(items[i]) <= k
  {
    if items != [] {
      HeightOfItemsIsMax(items[1..], k);
      assert forall i :: 0 < i < |items| ==> items[i] == items[1..][i - 1];
    }
  }

  lemma {:induction false} HeightOfEntriesIsMax(entries: seq<Entry>, k: nat)
    ensures HeightOfEntries(entries) <= k <==> forall i :: 0 <= i < |entries| ==> Height(entries[i].value) <= k
  {
    if entries != [] {
      HeightOfEntriesIsMax(entries[1..], k);
      assert forall i :: 0 < i < |entries| ==> entries[i] == entries[1..][i - 1];
    }
  }

  /** A sequence of values fits below a container exactly when the container itself fits. */
  lemma ItemsFit(items: seq<Value>, depth: int, maxDepth: int)
    ensures depth + HeightOfItems(items) <= maxDepth
       <==> depth <= maxDepth && forall i :: 0 <= i < |items| ==> Fits(items[i], depth + 1, maxDepth)
  {
  }

  lemma EntriesFit(entries: seq<Entry>, depth: int, maxDepth: int)
    ensures depth + HeightOfEntries(entries) <= maxDepth
       <==> depth <= maxDepth && forall i :: 0 <= i < |entries| ==> Fits(entries[i].value, depth + 1, maxDepth)
  {
  }

  // ---------------------------------------------------------------------------
  // The validator
  // ---------------------------------------------------------------------------

  /** Succeeds exactly on acceptable values, returns their tuple-free copy, and otherwise
      names the first offending value by its path. */
  method EnsureJsonSafe(value: Value, path: seq<Segment>, currentDepth: int, maxDepth: int)
    returns (r: Result<Value, PayloadError>)
    ensures r.Ok? <==> Acceptable(value, currentDepth, maxDepth)
    ensures r.Ok? ==> r.value == Collapse(value)
    ensures r.Err? ==>
      && path <= r.error.path
      && FirstOffence(value, r.error.path[|path|..], currentDepth, maxDepth, r.error.kind)
    decreases value, 1
  {
    match value {
      case ListValue(items) =>
        r := EnsureItems(value, items, path, currentDepth, maxDepth);
      case TupleValue(items) =>
        r := EnsureItems(value, items, path, currentDepth, maxDepth);
      case DictValue(entries) =>
        EntriesFit(entries, currentDepth, maxDepth);
        if currentDepth > maxDepth {
          return Err(PayloadError(TooDeep, path));
        }
        if !StringKeys(entries) {
          return Err(PayloadError(NonStringKey, path));
        }
        var converted: seq<Entry> := [];
        var index := 0;
        while index < |entries|
          invariant 0 <= index <= |entries| && |converted| == index
          invariant forall i :: 0 <= i < index ==> Acceptable(entries[i].value, currentDepth + 1, maxDepth)
          invariant forall i :: 0 <= i < index ==> converted[i] == Entry(entries[i].key, Collapse(entries[i].value))
        {
          var segment := Field(entries[index].key.name);
          var item := EnsureJsonSafe(entries[index].value, path + [segment], currentDepth + 1, maxDepth);
          if item.Err? {
            var rel := item.error.path[|path|..];
            assert rel[0] == segment && rel[1..] == item.error.path[|path| + 1..];
            return Err(item.error);
          }
          converted := converted + [Entry(entries[index].key, item.value)];
          index := index + 1;
        }
        assert converted == CollapseEntries(entries);
        r := Ok(DictValue(converted));
      case Leaf(_) =>
        r := Ok(value);
      case Foreign(_) =>
        r := Err(PayloadError(NonJsonType, path));
    }
  }

  /** The list and tuple branch: one accumulator over the items. */
  method EnsureItems(value: Value, items: seq<Value>, path: seq<Segment>, currentDepth: int, maxDepth: int)
    returns (r: Result<Value, PayloadError>)
    requires value == ListValue(items) || value == TupleValue(items)
    ensures r.Ok? <==> Acceptable(value, currentDepth, maxDepth)
    ensures r.Ok? ==> r.value == Collapse(value)
    ensures r.Err? ==>
      && path <= r.error.path
      && FirstOffence(value, r.error.path[|path|..], currentDepth, maxDepth, r.error.kind)
    decreases value, 0
  {
    ItemsFit(items, currentDepth, maxDepth);
    if currentDepth > maxDepth {
      return Err(PayloadError(TooDeep, path));
    }
    var converted: seq<Value> := [];
    var index := 0;
    while index < |items|
      invariant 0 <= index <= |items| && |converted| == index
      invariant forall i :: 0 <= i < index ==> Acceptable(items[i], currentDepth + 1, maxDepth)
      invariant forall i :: 0 <= i < index ==> converted[i] == Collapse(items[i])
    {
      var item := EnsureJsonSafe(items[index], path + [Index(index)], currentDepth + 1, maxDepth);
      if item.Err? {
        var rel := item.error.path[|path|..];
        assert rel[0] == Index(index) && rel[1..] == item.error.path[|path| + 1..];
        assert FirstOffenceInItems(items, rel, currentDepth, maxDepth, item.error.kind);
        return Err(item.error);
      }
      converted := converted + [item.value];
      index := index + 1;
    }
    assert converted == CollapseItems(items);
    r := Ok(ListValue(converted));
  }

  /** `args` and `kwargs` are checked at depth 1, then the two serialized sizes are summed. */
  method ValidateCommandPayload(
    args: seq<Value>, kwargs: seq<Entry>, maxDepth: int, maxBytes: int, size: Value -> nat)
    returns (r: Result<(seq<Value>, seq<Entry>), PayloadError>)
    ensures r.Ok? <==>
      && Acceptable(ListValue(args), 1, maxDepth)
      && Acceptable(DictValue(kwargs), 1, maxDepth)
      && size(Collapse(ListValue(args))) + size(Collapse(DictValue(kwargs))) <= maxBytes
    ensures r.Ok? ==> r.value == (CollapseItems(args), CollapseEntries(kwargs))
  {
    var normalizedArgs := EnsureJsonSafe(ListValue(args), [Root("args")], 1, maxDepth);
    if normalizedArgs.Err? {
      return Err(normalizedArgs.error);
    }
    var normalizedKwargs := EnsureJsonSafe(DictValue(kwargs), [Root("kwargs")], 1, maxDepth);
    if normalizedKwargs.Err? {
      return Err(normalizedKwargs.error);
    }
    if size(normalizedArgs.value) + size(normalizedKwargs.value) > maxBytes {
      return Err(PayloadError(TooLarge, []));
    }
    r := Ok((normalizedArgs.value.items, normalizedKwargs.value.entries));
  }

  /** The non-raising probe starts at depth 0. */
  method IsJsonSafe(value: Value, maxDepth: int, maxBytes: int, size: Value -> nat) returns (safe: bool)
    ensures safe <==> Acceptable(value, 0, maxDepth) && size(Collapse(value)) <= maxBytes
  {
    var encoded := EnsureJsonSafe(value, [Root("")], 0, maxDepth);
    safe := encoded.Ok? && size(encoded.value) <= maxBytes;
  }

  // ---------------------------------------------------------------------------
  // Properties of the stored copy
  // ---------------------------------------------------------------------------

  /** The copy has no tuples, the same nesting, is as clean as the original, and is left
      unchanged by a second pass. */
  lemma {:induction false} CollapseIsStable(v: Value)
    ensures TupleFree(Collapse(v))
    ensures Height(Collapse(v)) == Height(v)
    ensures Clean(Collapse(v)) <==> Clean(v)
    ensures Collapse(v) == v <==> TupleFree(v)
  {
    match v {
      case Leaf(_) =>
      case Foreign(_) =>
      case ListValue(items) => CollapseItemsIsStable(items);
      case TupleValue(items) => CollapseItemsIsStable(items);
      case DictValue(entries) => CollapseEntriesIsStable(entries);
    }
  }

  lemma {:induction false} CollapseItemsIsStable(items: seq<Value>)
    ensures forall i :: 0 <= i < |items| ==>
      && TupleFree(Collapse(items[i]))
      && (Clean(Collapse(items[i])) <==> Clean(items[i]))
      && (Collapse(items[i]) == items[i] <==> TupleFree(items[i]))
    ensures HeightOfItems(CollapseItems(items)) == HeightOfItems(items)
    ensures CollapseItems(items) == items <==> forall i :: 0 <= i < |items| ==> Collapse(items[i]) == items[i]
  {
    if items != [] {
      CollapseIsStable(items[0]);
      CollapseItemsIsStable(items[1..]);
      assert CollapseItems(items)[1..] == CollapseItems(items[1..]);
      assert forall i :: 0 < i < |items| ==> items[i] == items[1..][i - 1];
    }
  }

  lemma {:induction false} CollapseEntriesIsStable(entries: seq<Entry>)
    ensures forall i :: 0 <= i < |entries| ==>
      && TupleFree(Collapse(entries[i].value))
      && (Clean(Collapse(entries[i].value)) <==> Clean(entries[i].value))
      && (Collapse(entries[i].value) == entries[i].value <==> TupleFree(entries[i].value))
    ensures HeightOfEntries(CollapseEntries(entries)) == HeightOfEntries(entries)
    ensures CollapseEntries(entries) == entries
       <==> forall i :: 0 <= i < |entries| ==> Collapse(entries[i].value) == entries[i].value
  {
    if entries != [] {
      CollapseEntryIsStable(entries[0]);
      CollapseEntriesIsStable(entries[1..]);
      assert CollapseEntries(entries)[1..] == CollapseEntries(entries[1..]);
      assert forall i :: 0 < i < |entries| ==> entries[i] == entries[1..][i - 1];
    }
  }

  lemma {:induction false} CollapseEntryIsStable(entry: Entry)
    ensures TupleFree(Collapse(entry.value))
    ensures Clean(Collapse(entry.value)) <==> Clean(entry.value)
    ensures Collapse(entry.value) == entry.value <==> TupleFree(entry.value)
    ensures Height(Collapse(entry.value)) == Height(entry.value)
  {
    CollapseIsStable(entry.value);
  }

  /** The tuple-free copy is as storable as the original. */
  lemma {:induction false} CollapseKeepsStorable(v: Value)
    ensures Storable(Collapse(v)) <==> Storable(v)
  {
    match v {
      case ListValue(items) => CollapseItemsKeepsStorable(items);
      case TupleValue(items) => CollapseItemsKeepsStorable(items);
      case DictValue(entries) => CollapseEntriesKeepsStorable(entries);
      case _ =>
    }
  }

  lemma {:induction false} CollapseItemsKeepsStorable(items: seq<Value>)
    ensures forall i :: 0 <= i < |items| ==> (Storable(Collapse(items[i])) <==> Storable(items[i]))
  {
    if items != [] {
      CollapseKeepsStorable(items[0]);
      CollapseItemsKeepsStorable(items[1..]);
      assert forall i :: 0 < i < |items| ==> items[i] == items[1..][i - 1];
    }
  }

  lemma {:induction false} CollapseEntriesKeepsStorable(entries: seq<Entry>)
    ensures forall i :: 0 <= i < |entries| ==> (Storable(Collapse(entries[i].value)) <==> Storable(entries[i].value))
  {
    if entries != [] {
      CollapseEntryKeepsStorable(entries[0]);
      CollapseEntriesKeepsStorable(entries[1..]);
      assert forall i :: 0 < i < |entries| ==> entries[i] == entries[1..][i - 1];
    }
  }

  lemma {:induction false} CollapseEntryKeepsStorable(entry: Entry)
    ensures Storable(Collapse(entry.value)) <==> Storable(entry.value)
  {
    CollapseKeepsStorable(entry.value);
  }

  /** So validation does not imply storability: it accepts a date, which the column refuses. */
  lemma AcceptedButNotStorable(iso: string)
    ensures var v := ListValue([Leaf(DateAtom(iso))]);
      Acceptable(v, 1, DEFAULT_MAX_PAYLOAD_DEPTH) && !Storable(v)
  {
    var v := ListValue([Leaf(DateAtom(iso))]);
    assert !Storable(v.items[0]);
    assert HeightOfItems(v.items) == 0;
  }

  /** Validating a validated payload again, at the same depth, accepts it and changes nothing. */
  lemma RevalidationIsIdentity(v: Value, depth: int, maxDepth: int)
    requires Acceptable(v, depth, maxDepth)
    ensures Acceptable(Collapse(v), depth, maxDepth)
    ensures Collapse(Collapse(v)) == Collapse(v)
  {
    CollapseIsStable(v);
    CollapseIsStable(Collapse(v));
  }

  /** `n` nested one-element lists around an empty one. */
  function Nested(n: nat): (v: Value)
    ensures Clean(v) && Height(v) == n + 1
  {
    if n == 0 then ListValue([])
    else
      var inner := Nested(n - 1);
      assert HeightOfItems([inner]) == Max(Height(inner), HeightOfItems([inner][1..]));
      ListValue([inner])
  }

  /** The probe is one level more generous than the validator: it agrees with the validator run
      at one level less, and at every limit there is a payload only the probe accepts. */
  lemma ProbeIsOneLevelWider(v: Value, maxDepth: nat)
    ensures Acceptable(v, 1, maxDepth) <==> Acceptable(v, 0, maxDepth - 1)
    ensures Acceptable(Nested(maxDepth), 0, maxDepth) && !Acceptable(Nested(maxDepth), 1, maxDepth)
  {
  }
}
