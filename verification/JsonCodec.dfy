/** The nested value set that may be stored as JSON, on its way in (requireSupported) and out (freeze). */
module JsonCodec {

  /** A key of a Java map: a string, null, or an object of any other class. */
  datatype Key = Text(name: string) | NullKey | Foreign(className: string)

  datatype Entry = Entry(key: Key, value: Value)

  /** A Java value: the supported scalars, maps and lists of values, null, and objects of any other class. */
  datatype Value =
    | Null
    | Str(s: string)
    | Bool(b: bool)
    | Int(i: int)
    | Long(l: int)
    | Double(bits: int, finite: bool)
    | Obj(entries: seq<Entry>)
    | Arr(elements: seq<Value>)
    | Other(className: string)

  /** requireSupported: true where it returns, false where it throws. */
  predicate Supported(v: Value) {
    match v
    case Null => false
    case Str(_) => true
    case Bool(_) => true
    case Int(_) => true
    case Long(_) => true
    case Double(_, finite) => finite
    case Obj(entries) => forall e <- entries :: e.key.Text? && Supported(e.value)
    case Arr(elements) => forall e <- elements :: Supported(e)
    case Other(_) => false
  }

  datatype Frozen = Kept(value: Value) | Rejected

  /** freeze: a deep copy, or Rejected where it throws. */
  function Freeze(v: Value): (r: Frozen) {
    match v
    case Null => Rejected
    case Other(_) => Rejected
    case Obj(entries) =>
      var copies := FreezeEntries(entries);
      if copies.Refused? then Rejected else Kept(Obj(copies.value))
    case Arr(elements) =>
      var copies := FreezeElements(elements);
      if copies.Refused? then Rejected else Kept(Arr(copies.value))
    case _ => Kept(v)
  }

  datatype Copies<T> = Copied(value: seq<T>) | Refused

  function FreezeEntries(entries: seq<Entry>): (r: Copies<Entry>) {
    if entries == [] then Copied([])
    else
      var first := FreezeEntry(entries[0]);
      var rest := FreezeEntries(entries[1..]);
      if first.Rejected? || rest.Refused? then Refused else Copied([Entry(entries[0].key, first.value)] + rest.value)
  }

  /** The cast of the key to a string fails for an object of another class, but not for null. */
  function FreezeEntry(e: Entry): (r: Frozen) {
    if e.key.Foreign? then Rejected else Freeze(e.value)
  }

  function FreezeElements(elements: seq<Value>): (r: Copies<Value>) {
    if elements == [] then Copied([])
    else
      var first := Freeze(elements[0]);
      var rest := FreezeElements(elements[1..]);
      if first.Rejected? || rest.Refused? then Refused else Copied([first.value] + rest.value)
  }

  /** Every double nested in v is finite: a demand of requireSupported that freeze does not repeat. */
  predicate AllFinite(v: Value) {
    match v
    case Double(_, finite) => finite
    case Obj(entries) => forall e <- entries :: AllFinite(e.value)
    case Arr(elements) => forall e <- elements :: AllFinite(e)
    case _ => true
  }

  /** No map nested in v has a null key: the other demand of requireSupported that freeze does not repeat. */
  predicate NoNullKeys(v: Value) {
    match v
    case Obj(entries) => forall e <- entries :: !e.key.NullKey? && NoNullKeys(e.value)
    case Arr(elements) => forall e <- elements :: NoNullKeys(e)
    case _ => true
  }

  /** What freeze lets pass and requireSupported does not. */
  predicate Storable(v: Value) {
    AllFinite(v) && NoNullKeys(v)
  }

  /**
   * At any nesting depth, what may be stored is exactly what freeze returns unchanged, whose doubles are finite and
   * whose maps have no null key; freeze never alters a value it accepts.
   */
  lemma {:induction false} SupportedIffFrozenUnchanged(v: Value)
    ensures Supported(v) <==> Freeze(v) == Kept(v) && AllFinite(v) && NoNullKeys(v)
    ensures Freeze(v).Kept? ==> Freeze(v).value == v
  {
    match v
    case Obj(entries) => EntriesFrozenUnchanged(entries);
    case Arr(elements) => ElementsFrozenUnchanged(elements);
    case _ =>
  }

  lemma {:induction false} EntriesFrozenUnchanged(entries: seq<Entry>)
    ensures (forall e <- entries :: e.key.Text? && Supported(e.value))
       <==> FreezeEntries(entries).Copied? && forall e <- entries :: !e.key.NullKey? && Storable(e.value)
    ensures FreezeEntries(entries).Copied? ==> FreezeEntries(entries).value == entries
  {
    if entries != [] {
      EntryFrozenUnchanged(entries[0]);
      EntriesFrozenUnchanged(entries[1..]);
      assert entries == [entries[0]] + entries[1..];
    }
  }

  lemma {:induction false} EntryFrozenUnchanged(e: Entry)
    ensures e.key.Text? && Supported(e.value) <==> FreezeEntry(e).Kept? && !e.key.NullKey? && Storable(e.value)
    ensures FreezeEntry(e).Kept? ==> FreezeEntry(e).value == e.value
  {
    SupportedIffFrozenUnchanged(e.value);
  }

  lemma {:induction false} ElementsFrozenUnchanged(elements: seq<Value>)
    ensures (forall e <- elements :: Supported(e))
       <==> FreezeElements(elements).Copied? && forall e <- elements :: Storable(e)
    ensures FreezeElements(elements).Copied? ==> FreezeElements(elements).value == elements
  {
    if elements != [] {
      SupportedIffFrozenUnchanged(elements[0]);
      ElementsFrozenUnchanged(elements[1..]);
      assert elements == [elements[0]] + elements[1..];
    }
  }

  /**
   * Any map whose keys are strings or null and whose values are supported: freeze hands it back as it is, and
   * requireSupported refuses it iff a key is null.
   */
  lemma NullKeyIsFrozenButRefused(entries: seq<Entry>)
    requires forall e <- entries :: !e.key.Foreign? && Supported(e.value)
    ensures Freeze(Obj(entries)) == Kept(Obj(entries))
    ensures !Supported(Obj(entries)) <==> exists e <- entries :: e.key.NullKey?
  {
    NullKeysAreFrozen(entries);
    if !Supported(Obj(entries)) {
      var e :| e in entries && !(e.key.Text? && Supported(e.value));
      assert e.key.NullKey?;
    }
  }

  lemma {:induction false} NullKeysAreFrozen(entries: seq<Entry>)
    requires forall e <- entries :: !e.key.Foreign? && Supported(e.value)
    ensures FreezeEntries(entries) == Copied(entries)
  {
    if entries != [] {
      SupportedIffFrozenUnchanged(entries[0].value);
      NullKeysAreFrozen(entries[1..]);
      assert entries == [entries[0]] + entries[1..];
    }
  }

  // ----- the same value up to the order of map entries -------------------------------------------------------

  predicate UniqueKeys(entries: seq<Entry>) {
    forall i, j :: 0 <= i < j < |entries| ==> entries[i].key != entries[j].key
  }

  /** w is v with the entries of any maps in it, at any depth, in another order. */
  predicate Reordered(v: Value, w: Value) {
    match v
    case Obj(entries) =>
      && w.Obj? && UniqueKeys(entries) && UniqueKeys(w.entries)
      && (forall e <- entries :: ReorderedAmong(e, w.entries))
      && (forall f <- w.entries :: HasKey(entries, f.key))
    case Arr(elements) =>
      && w.Arr? && |elements| == |w.elements|
      && (forall i :: 0 <= i < |elements| ==> Reordered(elements[i], w.elements[i]))
    case _ => w == v
  }

  predicate ReorderedAmong(e: Entry, others: seq<Entry>) {
    exists f <- others :: f.key == e.key && Reordered(e.value, f.value)
  }

  predicate HasKey(entries: seq<Entry>, key: Key) {
    exists e <- entries :: e.key == key
  }

  /** Where the entry at i went. */
  lemma ReorderedTo(v: Value, w: Value, i: nat) returns (j: nat)
    requires v.Obj? && Reordered(v, w) && i < |v.entries|
    ensures w.Obj? && UniqueKeys(v.entries) && UniqueKeys(w.entries)
    ensures j < |w.entries| && w.entries[j].key == v.entries[i].key && Reordered(v.entries[i].value, w.entries[j].value)
  {
    var e := v.entries[i];
    assert ReorderedAmong(e, w.entries);
    var f :| f in w.entries && f.key == e.key && Reordered(e.value, f.value);
    j :| 0 <= j < |w.entries| && w.entries[j] == f;
  }

  /** Where the entry at j came from. */
  lemma ReorderedFrom(v: Value, w: Value, j: nat) returns (i: nat)
    requires v.Obj? && Reordered(v, w) && w.Obj? && j < |w.entries|
    ensures i < |v.entries| && v.entries[i].key == w.entries[j].key && Reordered(v.entries[i].value, w.entries[j].value)
  {
    assert HasKey(v.entries, w.entries[j].key);
    var e :| e in v.entries && e.key == w.entries[j].key;
    i :| 0 <= i < |v.entries| && v.entries[i] == e;
    var k := ReorderedTo(v, w, i);
    assert k == j;
  }

  // ----- what is supported, place by place -------------------------------------------------------------------

  /** The value inside v at a path of positions, each among the entries of an object or the elements of a list. */
  function At(v: Value, path: seq<nat>): Found {
    if path == [] then There(v)
    else if v.Obj? && path[0] < |v.entries| then At(v.entries[path[0]].value, path[1..])
    else if v.Arr? && path[0] < |v.elements| then At(v.elements[path[0]], path[1..])
    else Nowhere
  }

  datatype Found = There(value: Value) | Nowhere

  /** A string, a boolean, a number, finite if a double, a list, or an object all of whose keys are strings. */
  predicate Admissible(v: Value) {
    match v
    case Str(_) => true
    case Bool(_) => true
    case Int(_) => true
    case Long(_) => true
    case Double(_, finite) => finite
    case Arr(_) => true
    case Obj(entries) => forall i :: 0 <= i < |entries| ==> entries[i].key.Text?
    case Null => false
    case Other(_) => false
  }

  ghost predicate AdmissibleThroughout(v: Value) {
    forall path :: At(v, path).There? ==> Admissible(At(v, path).value)
  }

  /** A value is supported iff, however deep one looks, everything in it is admissible. */
  lemma {:induction false} SupportedIffAdmissible(v: Value)
    ensures Supported(v) <==> AdmissibleThroughout(v)
  {
    if Supported(v) {
      forall path | At(v, path).There? ensures Admissible(At(v, path).value) {
        AdmissibleAt(v, path);
      }
    }
    if AdmissibleThroughout(v) {
      ChildrenSupported(v);
    }
  }

  lemma {:induction false} AdmissibleAt(v: Value, path: seq<nat>)
    requires Supported(v) && At(v, path).There?
    ensures Admissible(At(v, path).value)
    decreases |path|
  {
    if path != [] {
      if v.Obj? {
        assert v.entries[path[0]] in v.entries;
        AdmissibleAt(v.entries[path[0]].value, path[1..]);
      } else {
        assert v.elements[path[0]] in v.elements;
        AdmissibleAt(v.elements[path[0]], path[1..]);
      }
    }
  }

  lemma {:induction false} ChildrenSupported(v: Value)
    requires AdmissibleThroughout(v)
    ensures Supported(v)
    decreases v
  {
    assert At(v, []) == There(v);
    match v
    case Obj(entries) =>
      forall i: nat | i < |entries| ensures Supported(entries[i].value) {
        forall path | At(entries[i].value, path).There? ensures Admissible(At(entries[i].value, path).value) {
          assert ([i] + path)[1..] == path && At(v, [i] + path) == At(entries[i].value, path);
        }
        ChildrenSupported(entries[i].value);
      }
    case Arr(elements) =>
      forall i: nat | i < |elements| ensures Supported(elements[i]) {
        forall path | At(elements[i], path).There? ensures Admissible(At(elements[i], path).value) {
          assert ([i] + path)[1..] == path && At(v, [i] + path) == At(elements[i], path);
        }
        ChildrenSupported(elements[i]);
      }
    case _ =>
  }

  /** No null, no object of a foreign class, and no key that is neither a string nor null. */
  predicate Freezable(v: Value) {
    !v.Null? && !v.Other? && (v.Obj? ==> forall i :: 0 <= i < |v.entries| ==> !v.entries[i].key.Foreign?)
  }

  ghost predicate FreezableThroughout(v: Value) {
    forall path :: At(v, path).There? ==> Freezable(At(v, path).value)
  }

  /** freeze hands a value back iff, however deep one looks, everything in it can be frozen. */
  lemma {:induction false} FrozenIffFreezable(v: Value)
    ensures Freeze(v).Kept? <==> FreezableThroughout(v)
  {
    if Freeze(v).Kept? {
      forall path | At(v, path).There? ensures Freezable(At(v, path).value) {
        FreezableAt(v, path);
      }
    }
    if FreezableThroughout(v) {
      ChildrenFrozen(v);
    }
  }

  lemma {:induction false} EntriesFrozenIff(entries: seq<Entry>)
    ensures FreezeEntries(entries).Copied? <==>
              forall i :: 0 <= i < |entries| ==> !entries[i].key.Foreign? && Freeze(entries[i].value).Kept?
  {
    if entries != [] {
      EntriesFrozenIff(entries[1..]);
      assert forall i :: 0 < i < |entries| ==> entries[i] == entries[1..][i - 1];
    }
  }

  lemma {:induction false} ElementsFrozenIff(elements: seq<Value>)
    ensures FreezeElements(elements).Copied? <==> forall i :: 0 <= i < |elements| ==> Freeze(elements[i]).Kept?
  {
    if elements != [] {
      ElementsFrozenIff(elements[1..]);
      assert forall i :: 0 < i < |elements| ==> elements[i] == elements[1..][i - 1];
    }
  }

  lemma {:induction false} FreezableAt(v: Value, path: seq<nat>)
    requires Freeze(v).Kept? && At(v, path).There?
    ensures Freezable(At(v, path).value)
    decreases |path|
  {
    if v.Obj? {
      EntriesFrozenIff(v.entries);
    } else if v.Arr? {
      ElementsFrozenIff(v.elements);
    }
    if path != [] {
      if v.Obj? {
        FreezableAt(v.entries[path[0]].value, path[1..]);
      } else {
        FreezableAt(v.elements[path[0]], path[1..]);
      }
    }
  }

  lemma {:induction false} ChildrenFrozen(v: Value)
    requires FreezableThroughout(v)
    ensures Freeze(v).Kept?
    decreases v
  {
    assert At(v, []) == There(v);
    match v
    case Obj(entries) =>
      EntriesFrozenIff(entries);
      forall i: nat | i < |entries| ensures Freeze(entries[i].value).Kept? {
        forall path | At(entries[i].value, path).There? ensures Freezable(At(entries[i].value, path).value) {
          assert ([i] + path)[1..] == path && At(v, [i] + path) == At(entries[i].value, path);
        }
        ChildrenFrozen(entries[i].value);
      }
    case Arr(elements) =>
      ElementsFrozenIff(elements);
      forall i: nat | i < |elements| ensures Freeze(elements[i]).Kept? {
        forall path | At(elements[i], path).There? ensures Freezable(At(elements[i], path).value) {
          assert ([i] + path)[1..] == path && At(v, [i] + path) == At(elements[i], path);
        }
        ChildrenFrozen(elements[i]);
      }
    case _ =>
  }
}
