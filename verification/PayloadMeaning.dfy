/** The payload rules told without recursion: what may occur where in a value. */
module PayloadMeaning {
  import opened PayloadValidator

  /** `w` occurs in `v`, inside `n` containers. */
  ghost predicate Occurs(w: Value, v: Value, n: nat)
    decreases n
  {
    if n == 0 then w == v
    else
      match v
      case ListValue(items) => exists i :: 0 <= i < |items| && Occurs(w, items[i], n - 1)
      case TupleValue(items) => exists i :: 0 <= i < |items| && Occurs(w, items[i], n - 1)
      case DictValue(entries) => exists i :: 0 <= i < |entries| && Occurs(w, entries[i].value, n - 1)
      case _ => false
  }

  /** The three rules, for a value met at `depth`. */
  predicate Breaks(w: Value, depth: int, maxDepth: int, kind: ErrorKind) {
    match kind
    case TooDeep => (w.ListValue? || w.TupleValue? || w.DictValue?) && depth > maxDepth
    case NonStringKey => w.DictValue? && exists i :: 0 <= i < |w.entries| && w.entries[i].key.OtherKey?
    case NonJsonType => w.Foreign?
    case TooLarge => false
  }

  predicate BreaksAny(w: Value, depth: int, maxDepth: int) {
    || Breaks(w, depth, maxDepth, TooDeep) || Breaks(w, depth, maxDepth, NonStringKey)
    || Breaks(w, depth, maxDepth, NonJsonType)
  }

  ghost predicate Flawless(v: Value, depth: int, maxDepth: int) {
    forall w, n: nat :: Occurs(w, v, n) ==> !BreaksAny(w, depth + n, maxDepth)
  }

  lemma AcceptableItem(v: Value, items: seq<Value>, depth: int, maxDepth: int, i: nat)
    requires Acceptable(v, depth, maxDepth) && (v == ListValue(items) || v == TupleValue(items)) && i < |items|
    ensures Acceptable(items[i], depth + 1, maxDepth)
  {
    ItemsFit(items, depth, maxDepth);
  }

  lemma AcceptableEntry(entries: seq<Entry>, depth: int, maxDepth: int, i: nat)
    requires Acceptable(DictValue(entries), depth, maxDepth) && i < |entries|
    ensures Acceptable(entries[i].value, depth + 1, maxDepth)
  {
    EntriesFit(entries, depth, maxDepth);
  }

  lemma {:induction false} NothingBreaks(w: Value, v: Value, n: nat, depth: int, maxDepth: int, kind: ErrorKind)
    requires Acceptable(v, depth, maxDepth) && Occurs(w, v, n)
    ensures !Breaks(w, depth + n, maxDepth, kind)
    decreases n
  {
    if n > 0 {
      match v {
        case ListValue(items) =>
          var i :| 0 <= i < |items| && Occurs(w, items[i], n - 1);
          AcceptableItem(v, items, depth, maxDepth, i);
          NothingBreaks(w, items[i], n - 1, depth + 1, maxDepth, kind);
        case TupleValue(items) =>
          var i :| 0 <= i < |items| && Occurs(w, items[i], n - 1);
          AcceptableItem(v, items, depth, maxDepth, i);
          NothingBreaks(w, items[i], n - 1, depth + 1, maxDepth, kind);
        case DictValue(entries) =>
          var i :| 0 <= i < |entries| && Occurs(w, entries[i].value, n - 1);
          AcceptableEntry(entries, depth, maxDepth, i);
          NothingBreaks(w, entries[i].value, n - 1, depth + 1, maxDepth, kind);
      }
    }
  }

  /** A value that is not acceptable holds one that breaks a rule. */
  lemma {:induction false} SomethingBreaks(v: Value, depth: int, maxDepth: int) returns (w: Value, n: nat, kind: ErrorKind)
    requires !Acceptable(v, depth, maxDepth)
    ensures Occurs(w, v, n) && Breaks(w, depth + n, maxDepth, kind)
    decreases v
  {
    w, n := v, 0;
    kind := if v.Foreign? then NonJsonType else if IsContainer(v) && depth > maxDepth then TooDeep else NonStringKey;
    if !Breaks(v, depth, maxDepth, kind) {
      match v {
        case ListValue(items) =>
          var i := BadItem(v, items, depth, maxDepth);
          w, n, kind := SomethingBreaks(items[i], depth + 1, maxDepth);
          n := n + 1;
        case TupleValue(items) =>
          var i := BadItem(v, items, depth, maxDepth);
          w, n, kind := SomethingBreaks(items[i], depth + 1, maxDepth);
          n := n + 1;
        case DictValue(entries) =>
          var i := BadEntry(entries, depth, maxDepth);
          w, n, kind := SomethingBreaks(entries[i].value, depth + 1, maxDepth);
          n := n + 1;
      }
    }
  }

  lemma BadItem(v: Value, items: seq<Value>, depth: int, maxDepth: int) returns (i: nat)
    requires !Acceptable(v, depth, maxDepth) && (v == ListValue(items) || v == TupleValue(items)) && depth <= maxDepth
    ensures i < |items| && !Acceptable(items[i], depth + 1, maxDepth)
  {
    ItemsFit(items, depth, maxDepth);
    i :| 0 <= i < |items| && !Acceptable(items[i], depth + 1, maxDepth);
  }

  lemma BadEntry(entries: seq<Entry>, depth: int, maxDepth: int) returns (i: nat)
    requires !Acceptable(DictValue(entries), depth, maxDepth) && depth <= maxDepth && StringKeys(entries)
    ensures i < |entries| && !Acceptable(entries[i].value, depth + 1, maxDepth)
  {
    EntriesFit(entries, depth, maxDepth);
    i :| 0 <= i < |entries| && !Acceptable(entries[i].value, depth + 1, maxDepth);
  }

  /** Acceptable means that nothing that occurs anywhere in the value breaks a rule where it occurs. */
  lemma AcceptableMeans(v: Value, depth: int, maxDepth: int)
    ensures Acceptable(v, depth, maxDepth) <==> Flawless(v, depth, maxDepth)
  {
    if Acceptable(v, depth, maxDepth) {
      forall w, n: nat | Occurs(w, v, n)
        ensures !BreaksAny(w, depth + n, maxDepth)
      {
        NothingBreaks(w, v, n, depth, maxDepth, TooDeep);
        NothingBreaks(w, v, n, depth, maxDepth, NonStringKey);
        NothingBreaks(w, v, n, depth, maxDepth, NonJsonType);
      }
    } else {
      var w, n, kind := SomethingBreaks(v, depth, maxDepth);
      assert BreaksAny(w, depth + n, maxDepth);
    }
  }

  /** `w` is what the path `rel` leads to in `v`. */
  ghost predicate IsAt(w: Value, v: Value, rel: seq<Segment>)
    decreases |rel|
  {
    if rel == [] then w == v
    else
      match v
      case ListValue(items) => rel[0].Index? && rel[0].i < |items| && IsAt(w, items[rel[0].i], rel[1..])
      case TupleValue(items) => rel[0].Index? && rel[0].i < |items| && IsAt(w, items[rel[0].i], rel[1..])
      case DictValue(entries) =>
        exists j :: 0 <= j < |entries| && entries[j].key.StrKey? && rel[0] == Field(entries[j].key.name)
          && IsAt(w, entries[j].value, rel[1..])
      case _ => false
  }

  /** The path in an error leads to a value that breaks the very rule that the error names; depth
      goes before the other rules. */
  lemma {:induction false} OffenceIsThere(v: Value, rel: seq<Segment>, depth: int, maxDepth: int, kind: ErrorKind)
    returns (w: Value)
    requires FirstOffence(v, rel, depth, maxDepth, kind)
    ensures IsAt(w, v, rel) && Breaks(w, depth + |rel|, maxDepth, kind)
    ensures kind == TooDeep <==> Breaks(w, depth + |rel|, maxDepth, TooDeep)
    decreases |rel|
  {
    if rel == [] {
      w := v;
    } else {
      match v {
        case ListValue(items) => w := OffenceIsThere(items[rel[0].i], rel[1..], depth + 1, maxDepth, kind);
        case TupleValue(items) => w := OffenceIsThere(items[rel[0].i], rel[1..], depth + 1, maxDepth, kind);
        case DictValue(entries) =>
          var j :| && 0 <= j < |entries| && entries[j].key.StrKey? && rel[0] == Field(entries[j].key.name)
                   && FirstOffence(entries[j].value, rel[1..], depth + 1, maxDepth, kind);
          w := OffenceIsThere(entries[j].value, rel[1..], depth + 1, maxDepth, kind);
      }
    }
  }

  /** And it is the first one in visiting order: at every container on the path, the container itself
      is not too deep and has only string keys, and everything before the step taken is flawless. */
  lemma OffenceIsFirst(v: Value, rel: seq<Segment>, depth: int, maxDepth: int, kind: ErrorKind)
    requires FirstOffence(v, rel, depth, maxDepth, kind) && rel != []
    ensures depth <= maxDepth
    ensures v.ListValue? || v.TupleValue? ==>
      && rel[0].Index? && rel[0].i < |v.items|
      && (forall i :: 0 <= i < rel[0].i ==> Flawless(v.items[i], depth + 1, maxDepth))
      && FirstOffence(v.items[rel[0].i], rel[1..], depth + 1, maxDepth, kind)
    ensures v.DictValue? ==>
      && (forall i :: 0 <= i < |v.entries| ==> v.entries[i].key.StrKey?)
      && exists j :: 0 <= j < |v.entries| && rel[0] == Field(v.entries[j].key.name)
           && (forall i :: 0 <= i < j ==> Flawless(v.entries[i].value, depth + 1, maxDepth))
           && FirstOffence(v.entries[j].value, rel[1..], depth + 1, maxDepth, kind)
  {
    hide Flawless, Acceptable;
    if v.DictValue? {
      forall i | 0 <= i < |v.entries|
        ensures Acceptable(v.entries[i].value, depth + 1, maxDepth) <==> Flawless(v.entries[i].value, depth + 1, maxDepth)
      {
        AcceptableMeans(v.entries[i].value, depth + 1, maxDepth);
      }
    } else {
      forall i | 0 <= i < |v.items|
        ensures Acceptable(v.items[i], depth + 1, maxDepth) <==> Flawless(v.items[i], depth + 1, maxDepth)
      {
        AcceptableMeans(v.items[i], depth + 1, maxDepth);
      }
    }
  }

  /** What the JSON column refuses. */
  predicate Refused(w: Value) {
    match w
    case Leaf(atom) =>
      match atom {
        case UuidAtom(_) => true
        case DatetimeAtom(_) => true
        case DateAtom(_) => true
        case StrAtom(s) => '\0' in s
        case _ => false
      }
    case DictValue(entries) => exists i :: 0 <= i < |entries| && entries[i].key.StrKey? && '\0' in entries[i].key.name
    case Foreign(_) => true
    case _ => false
  }

  lemma {:induction false} NothingRefused(w: Value, v: Value, n: nat)
    requires Storable(v) && Occurs(w, v, n)
    ensures !Refused(w)
    decreases n
  {
    if n > 0 {
      match v {
        case ListValue(items) =>
          var i :| 0 <= i < |items| && Occurs(w, items[i], n - 1);
          NothingRefused(w, items[i], n - 1);
        case TupleValue(items) =>
          var i :| 0 <= i < |items| && Occurs(w, items[i], n - 1);
          NothingRefused(w, items[i], n - 1);
        case DictValue(entries) =>
          var i :| 0 <= i < |entries| && Occurs(w, entries[i].value, n - 1);
          NothingRefused(w, entries[i].value, n - 1);
      }
    }
  }

  lemma {:induction false} SomethingRefused(v: Value) returns (w: Value, n: nat)
    requires !Storable(v)
    ensures Occurs(w, v, n) && Refused(w)
    decreases v
  {
    w, n := v, 0;
    if !Refused(v) {
      match v {
        case ListValue(items) =>
          var i :| 0 <= i < |items| && !Storable(items[i]);
          w, n := SomethingRefused(items[i]);
          n := n + 1;
        case TupleValue(items) =>
          var i :| 0 <= i < |items| && !Storable(items[i]);
          w, n := SomethingRefused(items[i]);
          n := n + 1;
        case DictValue(entries) =>
          var i :| 0 <= i < |entries| && !Storable(entries[i].value);
          w, n := SomethingRefused(entries[i].value);
          n := n + 1;
      }
    }
  }

  /** The column takes a value exactly if nothing in it is a UUID, a date or time, an unknown
      object, or text with a NUL character. */
  lemma StorableMeans(v: Value)
    ensures Storable(v) <==> forall w, n: nat :: Occurs(w, v, n) ==> !Refused(w)
  {
    if Storable(v) {
      forall w, n: nat | Occurs(w, v, n)
        ensures !Refused(w)
      {
        NothingRefused(w, v, n);
      }
    } else {
      var w, n := SomethingRefused(v);
      assert Occurs(w, v, n) && Refused(w);
    }
  }
}
