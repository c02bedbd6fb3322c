/**
 * HarnessSagaContext over the heap: the values of one saga, kept in mutable maps of the context's own and written
 * through to the store as frozen copies after every successful change.
 */
module SagaContext {
  import opened Spi

  /** A java.util.Map: client code may hold one and change it. */
  class MapObject {
    var fields: map<string, Obj>

    constructor (fields: map<string, Obj>)
      ensures this.fields == fields
    {
      this.fields := fields;
    }
  }

  datatype Obj = Scalar(className: string, text: string) | Ref(target: MapObject)

  /** What a record holds of one value: nobody can change it any more. */
  datatype Frozen = Plain(className: string, text: string) | Structured(fields: map<string, Obj>)

  type Values = map<string, Frozen>

  ghost function FrozenOf(value: Obj): Frozen
    reads if value.Ref? then {value.target} else {}
  {
    match value
    case Scalar(c, t) => Plain(c, t)
    case Ref(m) => Structured(m.fields)
  }

  /** The classes a caller may ask for: Object, Map, or the class of a scalar. */
  datatype Asked = AnyObject | AnyMap | OfClass(className: string)

  predicate IsInstance(value: Frozen, asked: Asked) {
    asked.AnyObject? || (asked.AnyMap? && value.Structured?) || (asked.OfClass? && value.Plain? &&
        value.className == asked.className)
  }

  datatype Answer = Found(value: Frozen) | Missing | TypeMismatch | BlankName

  /** What client code does with the context, and with the maps it holds. */
  datatype Change =
    | Put(name: string, value: Obj)
    | Update(name: string, field: string, value: Obj)
    | ChangeMap(target: MapObject, fields: map<string, Obj>)

  datatype Refusal = Blank | NonStructured

  predicate IsBlank(s: string) {
    forall c <- s :: c in " \t\n\r"
  }

  // ----- what the values are, as a function of the changes ---------------------------------------------------

  function Lookup(values: Values, name: string, asked: Asked): Answer {
    if IsBlank(name) then BlankName
    else if name !in values then Missing
    else if !IsInstance(values[name], asked) then TypeMismatch
    else Found(values[name])
  }

  function Updated(values: Values, name: string, field: string, value: Obj): Values
    requires name in values ==> values[name].Structured?
  {
    values[name := Structured((if name in values then values[name].fields else map[])[field := value])]
  }

  function UpdateRefusal(values: Values, name: string, field: string): Option<Refusal> {
    if IsBlank(name) || IsBlank(field) then Some(Blank)
    else if name in values && values[name].Plain? then Some(NonStructured) else None
  }

  /**
   * A question under a blank name is refused; a name without a value is missing; a value is found iff anything was
   * asked for, or a map and it is one, or its very class; and any other question is a type mismatch.
   */
  lemma LookupIs(values: Values, name: string, asked: Asked)
    ensures var answer := Lookup(values, name, asked);
      && (answer == BlankName <==> forall i :: 0 <= i < |name| ==> name[i] in [' ', '\t', '\n', '\r'])
      && (answer == Missing <==> !answer.BlankName? && name !in values)
      && (answer.Found? <==>
            && !answer.BlankName? && name in values
            && match asked
               case AnyObject => true
               case AnyMap => values[name].Structured?
               case OfClass(className) => values[name].Plain? && values[name].className == className)
      && (answer.Found? ==> answer.value == values[name])
  {
    hide IsInstance;
    if !IsBlank(name) {
      var c :| c in name && c !in " \t\n\r";
      var i :| 0 <= i < |name| && name[i] == c;
    }
    InstanceIs(values, name, asked);
  }

  lemma InstanceIs(values: Values, name: string, asked: Asked)
    ensures name in values ==>
              (IsInstance(values[name], asked) <==>
                 match asked
                 case AnyObject => true
                 case AnyMap => values[name].Structured?
                 case OfClass(className) => values[name].Plain? && values[name].className == className)
  {
  }

  /** An update is refused iff one of its names has nothing but white space, or the name has a value that is no map. */
  lemma RefusalIs(values: Values, name: string, field: string)
    ensures UpdateRefusal(values, name, field).None? <==>
              && (exists i :: 0 <= i < |name| && name[i] !in [' ', '\t', '\n', '\r'])
              && (exists i :: 0 <= i < |field| && field[i] !in [' ', '\t', '\n', '\r'])
              && (name in values ==> values[name].Structured?)
    ensures UpdateRefusal(values, name, field) == Some(NonStructured) ==> name in values && values[name].Plain?
  {
    if !IsBlank(name) {
      var c :| c in name && c !in " \t\n\r";
      var i :| 0 <= i < |name| && name[i] == c;
    }
    if !IsBlank(field) {
      var c :| c in field && c !in " \t\n\r";
      var i :| 0 <= i < |field| && field[i] == c;
    }
  }

  /** A field of a structured value keeps the value of the last update that was not refused; nothing else moves. */
  lemma UpdateChangesOneField(values: Values, name: string, field: string, value: Obj)
    requires UpdateRefusal(values, name, field).None?
    ensures var after := Updated(values, name, field, value);
      && Lookup(after, name, AnyMap).Found? && field in after[name].fields && after[name].fields[field] == value
      && (forall other: string, asked | other != name :: Lookup(after, other, asked) == Lookup(values, other, asked))
      && (name in values ==> forall f <- values[name].fields :: f != field ==>
            f in after[name].fields && after[name].fields[f] == values[name].fields[f])
      && after[name].fields.Keys == (if name in values then values[name].fields.Keys else {}) + {field}
  {
    var after := Updated(values, name, field, value);
    assert name in after && !IsBlank(name);
  }

  // ----- which maps a record shares with client code ---------------------------------------------------------

  /** What a change amounts to: the value put as it was then, the field updated, or nothing. */
  datatype Write =
    | PutValue(name: string, content: Frozen)
    | SetField(name: string, field: string, value: Obj)
    | NoWrite

  predicate Accepted(values: Values, w: Write) {
    match w
    case PutValue(name, _) => !IsBlank(name)
    case SetField(name, field, _) => UpdateRefusal(values, name, field).None?
    case NoWrite => false
  }

  function Written(values: Values, w: Write): Values {
    if !Accepted(values, w) then values
    else
      match w
      case PutValue(name, value) => values[name := value]
      case SetField(name, field, value) => Updated(values, name, field, value)
  }

  function AfterWrites(values: Values, writes: seq<Write>): Values {
    if writes == [] then values
    else Written(AfterWrites(values, writes[..|writes| - 1]), writes[|writes| - 1])
  }

  function Cell(values: Values, name: string, field: string): Option<Obj> {
    if name in values && values[name].Structured? && field in values[name].fields
    then Some(values[name].fields[field]) else None
  }

  /** The record refers to the map m itself: a change to m is a change to what the record shows. */
  ghost predicate RefersTo(values: Values, m: MapObject) {
    exists name, field :: Cell(values, name, field) == Some(Ref(m))
  }

  /** An accepted write that puts m itself into a field: of a map that was put, or as the value of an update. */
  predicate Gives(values: Values, w: Write, name: string, field: string, m: MapObject) {
    && Accepted(values, w)
    && match w
       case PutValue(n, value) => n == name && value.Structured? && field in value.fields &&
           value.fields[field] == Ref(m)
       case SetField(n, f, value) => n == name && f == field && value == Ref(m)
       case NoWrite => false
  }

  predicate Replaces(values: Values, w: Write, name: string, field: string) {
    && Accepted(values, w)
    && match w
       case PutValue(n, _) => n == name
       case SetField(n, f, _) => n == name && f == field
       case NoWrite => false
  }

  lemma OneWrite(values: Values, w: Write, name: string, field: string, m: MapObject)
    ensures Cell(Written(values, w), name, field) == Some(Ref(m)) <==>
              Gives(values, w, name, field, m) || (Cell(values, name, field) == Some(Ref(m)) &&
                  !Replaces(values, w, name, field))
  {
  }

  predicate NotReplaced(values: Values, writes: seq<Write>, from: nat, name: string, field: string)
    requires from <= |writes|
  {
    forall j :: from <= j < |writes| ==> !Replaces(AfterWrites(values, writes[..j]), writes[j], name, field)
  }

  /** The map was there from the start, or the write at some place gave it; and nothing replaced it since. */
  ghost predicate StillGiven(values: Values, writes: seq<Write>, name: string, field: string, m: MapObject) {
    || (Cell(values, name, field) == Some(Ref(m)) && NotReplaced(values, writes, 0, name, field))
    || (exists i :: 0 <= i < |writes| && GivenAt(values, writes, i, name, field, m) &&
          NotReplaced(values, writes, i + 1, name, field))
  }

  predicate GivenAt(values: Values, writes: seq<Write>, i: nat, name: string, field: string, m: MapObject)
    requires i < |writes|
  {
    Gives(AfterWrites(values, writes[..i]), writes[i], name, field, m)
  }

  lemma {:induction false} CellIff(values: Values, writes: seq<Write>, name: string, field: string, m: MapObject)
    ensures Cell(AfterWrites(values, writes), name, field) == Some(Ref(m)) <==>
        StillGiven(values, writes, name, field, m)
  {
    hide Cell, Written, Gives, Replaces;
    if writes != [] {
      var n := |writes| - 1;
      var front := writes[..n];
      CellIff(values, front, name, field, m);
      OneWrite(AfterWrites(values, front), writes[n], name, field, m);
      forall k | 0 <= k <= n ensures writes[..k] == front[..k] {
      }
      forall k: nat | k <= n
        ensures NotReplaced(values, writes, k, name, field) <==>
                  NotReplaced(values, front, k, name, field) &&
                      !Replaces(AfterWrites(values, front), writes[n], name, field)
      {
        LaterReplaced(values, writes, k, name, field);
      }
      SameGiven(values, writes, name, field, m);
    }
  }

  lemma LaterReplaced(values: Values, writes: seq<Write>, k: nat, name: string, field: string)
    requires k < |writes|
    ensures var n := |writes| - 1;
      NotReplaced(values, writes, k, name, field) <==>
        NotReplaced(values, writes[..n], k, name, field) &&
            !Replaces(AfterWrites(values, writes[..n]), writes[n], name, field)
  {
    hide Replaces, AfterWrites;
    var n := |writes| - 1;
    assert forall j :: 0 <= j <= n ==> writes[..n][..j] == writes[..j];
  }

  /** Splitting off the last write. */
  lemma SameGiven(values: Values, writes: seq<Write>, name: string, field: string, m: MapObject)
    requires writes != []
    ensures var n := |writes| - 1; var front := writes[..n];
      StillGiven(values, writes, name, field, m) <==>
        || Gives(AfterWrites(values, front), writes[n], name, field, m)
        || (StillGiven(values, front, name, field, m) && !Replaces(AfterWrites(values, front), writes[n], name, field))
  {
    hide Gives, Replaces, AfterWrites, NotReplaced;
    var n := |writes| - 1;
    var front := writes[..n];
    NothingAfter(values, writes, name, field);
    LaterReplaced(values, writes, 0, name, field);
    forall i: nat | i < n
      ensures GivenAt(values, writes, i, name, field, m) <==> GivenAt(values, front, i, name, field, m)
      ensures NotReplaced(values, writes, i + 1, name, field) <==>
                NotReplaced(values, front, i + 1, name, field) &&
                    !Replaces(AfterWrites(values, front), writes[n], name, field)
    {
      assert front[..i] == writes[..i];
      LaterReplaced(values, writes, i + 1, name, field);
    }
    assert GivenAt(values, writes, n, name, field, m) <==> Gives(AfterWrites(values, front), writes[n], name, field, m);
    if StillGiven(values, writes, name, field, m) && !GivenAt(values, writes, n, name, field, m) {
      if i :|
           0 <= i < |writes| && GivenAt(values, writes, i, name, field, m)
           && NotReplaced(values, writes, i + 1, name, field)
      {
        assert i < n && GivenAt(values, front, i, name, field, m);
      }
    }
    if StillGiven(values, front, name, field, m) && !Replaces(AfterWrites(values, front), writes[n], name, field) {
      if i :|
           0 <= i < |front| && GivenAt(values, front, i, name, field, m)
           && NotReplaced(values, front, i + 1, name, field)
      {
        assert GivenAt(values, writes, i, name, field, m);
      }
    }
  }

  lemma NothingAfter(values: Values, writes: seq<Write>, name: string, field: string)
    ensures NotReplaced(values, writes, |writes|, name, field)
  {
  }

  /**
   * After any puts and updates the record refers to a map of the caller's iff a write that was not refused gave it that
   * map, as a field of a map that was put or as the value of an update, and no later write replaced it.
   */
  lemma SharedIffGiven(values: Values, writes: seq<Write>, m: MapObject)
    ensures RefersTo(AfterWrites(values, writes), m) <==>
        exists name, field :: StillGiven(values, writes, name, field, m)
  {
    hide Cell, StillGiven;
    forall name, field
      ensures Cell(AfterWrites(values, writes), name, field) == Some(Ref(m)) <==>
          StillGiven(values, writes, name, field, m)
    {
      CellIff(values, writes, name, field, m);
    }
  }

  ghost predicate SharesNothing(values: Values) {
    forall name, field :: Cell(values, name, field).None? || Cell(values, name, field).value.Scalar?
  }

  /** Refused, or without a map of the caller's: a value put has no map among its fields, a value updated is no map. */
  predicate Flat(values: Values, w: Write) {
    Accepted(values, w) ==>
      match w
      case PutValue(_, value) => value.Structured? ==> forall f <- value.fields :: value.fields[f].Scalar?
      case SetField(_, _, value) => value.Scalar?
      case NoWrite => true
  }

  /**
   * From a record that shares nothing: nothing is ever shared, at any point of any sequence of writes, iff each write
   * that is not refused is flat.
   */
  lemma {:induction false} NothingSharedIff(values: Values, writes: seq<Write>)
    requires SharesNothing(values)
    ensures (forall n :: 0 <= n <= |writes| ==> SharesNothing(AfterWrites(values, writes[..n]))) <==>
              (forall i :: 0 <= i < |writes| ==> Flat(AfterWrites(values, writes[..i]), writes[i]))
  {
    hide SharesNothing, Flat;
    if forall i :: 0 <= i < |writes| ==> Flat(AfterWrites(values, writes[..i]), writes[i]) {
      forall n | 0 <= n <= |writes| ensures SharesNothing(AfterWrites(values, writes[..n])) {
        FlatSharesNothing(values, writes, n);
      }
    }
    if forall n :: 0 <= n <= |writes| ==> SharesNothing(AfterWrites(values, writes[..n])) {
      forall i | 0 <= i < |writes| ensures Flat(AfterWrites(values, writes[..i]), writes[i]) {
        assert writes[..i + 1][..i] == writes[..i];
        assert SharesNothing(AfterWrites(values, writes[..i + 1]));
        WrittenFlat(AfterWrites(values, writes[..i]), writes[i]);
      }
    }
  }

  lemma WrittenFlat(values: Values, w: Write)
    ensures SharesNothing(Written(values, w)) ==> Flat(values, w)
    ensures SharesNothing(values) && Flat(values, w) ==> SharesNothing(Written(values, w))
  {
    if SharesNothing(Written(values, w)) && Accepted(values, w) && w.PutValue? && w.content.Structured? {
      forall f | f in w.content.fields ensures w.content.fields[f].Scalar? {
        assert Cell(Written(values, w), w.name, f) == Some(w.content.fields[f]);
      }
    }
    if SharesNothing(Written(values, w)) && Accepted(values, w) && w.SetField? {
      assert Cell(Written(values, w), w.name, w.field) == Some(w.value);
    }
    if SharesNothing(values) && Flat(values, w) {
      forall name, field
        ensures Cell(Written(values, w), name, field).None? || Cell(Written(values, w), name, field).value.Scalar?
      {
        assert Cell(values, name, field).None? || Cell(values, name, field).value.Scalar?;
      }
    }
  }

  lemma {:induction false} FlatSharesNothing(values: Values, writes: seq<Write>, n: nat)
    requires SharesNothing(values) && n <= |writes|
    requires forall i :: 0 <= i < |writes| ==> Flat(AfterWrites(values, writes[..i]), writes[i])
    ensures SharesNothing(AfterWrites(values, writes[..n]))
  {
    hide SharesNothing, Flat, Written;
    if n > 0 {
      FlatSharesNothing(values, writes, n - 1);
      assert writes[..n][..n - 1] == writes[..n - 1];
      WrittenFlat(AfterWrites(values, writes[..n - 1]), writes[n - 1]);
    }
  }

  /** Following fields that hold maps, from m to target. */
  ghost predicate LeadsTo(m: MapObject, path: seq<string>, target: MapObject, heap: set<MapObject>)
    reads heap
    decreases |path|
  {
    if path == [] then m == target
    else
      m in heap && path[0] in m.fields && m.fields[path[0]].Ref? &&
          LeadsTo(m.fields[path[0]].target, path[1..], target, heap)
  }

  /** Through any number of the maps of heap, the first of which the record refers to. */
  ghost predicate Reachable(values: Values, target: MapObject, heap: set<MapObject>)
    reads heap
  {
    exists m <- heap + {target}, path :: RefersTo(values, m) && LeadsTo(m, path, target, heap)
  }

  // ----- the same, of what callers did -----------------------------------------------------------------------

  /** The maps that are put. */
  function MapsPut(changes: seq<Change>): set<MapObject> {
    set c | c in changes && c.Put? && c.value.Ref? :: c.value.target
  }

  type Fields = map<string, Obj>

  /** What each of some maps holds. */
  ghost function Holding(maps: set<MapObject>): map<MapObject, Fields>
    reads maps
  {
    map m | m in maps :: m.fields
  }

  /** What the callers' maps hold after the changes, of which only the callers' own changes count. */
  function HeldAfter(changes: seq<Change>, held: map<MapObject, Fields>): (r: map<MapObject, Fields>)
    ensures held.Keys <= r.Keys
  {
    if changes == [] then held
    else
      var before := HeldAfter(changes[..|changes| - 1], held);
      match changes[|changes| - 1]
      case ChangeMap(target, fields) => before[target := fields]
      case _ => before
  }

  /** What a change writes: a map that is put, with the fields it has then. */
  function WriteOf(change: Change, held: map<MapObject, Fields>): Write
    requires change.Put? && change.value.Ref? ==> change.value.target in held
  {
    match change
    case Put(n, Scalar(c, t)) => PutValue(n, Plain(c, t))
    case Put(n, Ref(m)) => PutValue(n, Structured(held[m]))
    case Update(n, f, value) => SetField(n, f, value)
    case ChangeMap(_, _) => NoWrite
  }

  function WritesOf(changes: seq<Change>, held: map<MapObject, Fields>): (w: seq<Write>)
    requires MapsPut(changes) <= held.Keys
    ensures |w| == |changes|
  {
    if changes == [] then []
    else
      var n := |changes| - 1;
      assert forall c <- changes[..n] :: c in changes;
      assert changes[n] in changes;
      WritesOf(changes[..n], held) + [WriteOf(changes[n], HeldAfter(changes[..n], held))]
  }

  /** The i-th write is that of the i-th change, on what the maps held then. */
  lemma {:induction false} WritesOfAt(changes: seq<Change>, held: map<MapObject, Fields>, i: nat)
    requires MapsPut(changes) <= held.Keys && i <= |changes|
    ensures MapsPut(changes[..i]) <= held.Keys && WritesOf(changes, held)[..i] == WritesOf(changes[..i], held)
    ensures i < |changes| ==>
              && changes[i] in changes
              && WritesOf(changes, held)[i] == WriteOf(changes[i], HeldAfter(changes[..i], held))
  {
    assert forall c <- changes[..i] :: c in changes;
    var n := |changes| - 1;
    if i == |changes| {
      assert changes[..i] == changes;
    } else {
      assert changes[i] in changes;
      assert forall c <- changes[..n] :: c in changes;
      if i < n {
        WritesOfAt(changes[..n], held, i);
        assert changes[..n][..i] == changes[..i];
      }
    }
  }

  /** The change at i was accepted and gave m itself to a field: a map put with m in it then, or m as a new value. */
  predicate GaveAt(values: Values, changes: seq<Change>, held: map<MapObject, Fields>, i: nat, name: string,
                   field: string, m: MapObject)
    requires MapsPut(changes) <= held.Keys && i < |changes|
  {
    WritesOfAt(changes, held, i);
    match changes[i]
    case Put(n, Ref(p)) =>
      var fields := HeldAfter(changes[..i], held)[p];
      !IsBlank(n) && n == name && field in fields && fields[field] == Ref(m)
    case Update(n, f, value) =>
      && UpdateRefusal(AfterWrites(values, WritesOf(changes[..i], held)), n, f).None?
      && n == name && f == field && value == Ref(m)
    case _ => false
  }

  /** The change at i was accepted and overwrote the field. */
  predicate OverwroteAt(values: Values, changes: seq<Change>, held: map<MapObject, Fields>, i: nat, name: string,
                        field: string)
    requires MapsPut(changes) <= held.Keys && i < |changes|
  {
    WritesOfAt(changes, held, i);
    match changes[i]
    case Put(n, _) => !IsBlank(n) && n == name
    case Update(n, f, _) =>
      && UpdateRefusal(AfterWrites(values, WritesOf(changes[..i], held)), n, f).None?
      && n == name && f == field
    case ChangeMap(_, _) => false
  }

  ghost predicate KeptSince(values: Values, changes: seq<Change>, held: map<MapObject, Fields>, from: nat,
                            name: string, field: string)
    requires MapsPut(changes) <= held.Keys && from <= |changes|
  {
    forall j :: from <= j < |changes| ==> !OverwroteAt(values, changes, held, j, name, field)
  }

  /** A caller's map is in a field of the record: from the start or given by a change, and not overwritten since. */
  ghost predicate StillShared(values: Values, changes: seq<Change>, held: map<MapObject, Fields>, name: string,
                              field: string, m: MapObject)
    requires MapsPut(changes) <= held.Keys
  {
    || (Cell(values, name, field) == Some(Ref(m)) && KeptSince(values, changes, held, 0, name, field))
    || (exists i :: 0 <= i < |changes| && GaveAt(values, changes, held, i, name, field, m) &&
          KeptSince(values, changes, held, i + 1, name, field))
  }

  ghost predicate SharedStill(values: Values, changes: seq<Change>, held: map<MapObject, Fields>, m: MapObject)
    requires MapsPut(changes) <= held.Keys
  {
    exists name, field :: StillShared(values, changes, held, name, field, m)
  }

  lemma GaveIsGiven(values: Values, changes: seq<Change>, held: map<MapObject, Fields>, i: nat, name: string,
                    field: string, m: MapObject)
    requires MapsPut(changes) <= held.Keys && i < |changes|
    ensures GaveAt(values, changes, held, i, name, field, m) <==>
              GivenAt(values, WritesOf(changes, held), i, name, field, m)
    ensures OverwroteAt(values, changes, held, i, name, field) <==>
              var writes := WritesOf(changes, held); Replaces(AfterWrites(values, writes[..i]), writes[i], name, field)
  {
    hide WritesOf, HeldAfter, AfterWrites, UpdateRefusal, IsBlank;
    WritesOfAt(changes, held, i);
  }

  lemma SharedIsGiven(values: Values, changes: seq<Change>, held: map<MapObject, Fields>, name: string,
                      field: string, m: MapObject)
    requires MapsPut(changes) <= held.Keys
    ensures StillShared(values, changes, held, name, field, m) <==>
              StillGiven(values, WritesOf(changes, held), name, field, m)
  {
    hide WritesOf, GaveAt, OverwroteAt, GivenAt, Replaces, AfterWrites, Cell, MapsPut;
    var writes := WritesOf(changes, held);
    forall i: nat | i < |changes|
      ensures GaveAt(values, changes, held, i, name, field, m) <==> GivenAt(values, writes, i, name, field, m)
      ensures OverwroteAt(values, changes, held, i, name, field) <==>
                Replaces(AfterWrites(values, writes[..i]), writes[i], name, field)
    {
      GaveIsGiven(values, changes, held, i, name, field, m);
    }
    forall i: nat | i <= |changes|
      ensures KeptSince(values, changes, held, i, name, field) <==> NotReplaced(values, writes, i, name, field)
    {
    }
  }

  /**
   * After any changes by callers, to the context and to their own maps, the record refers to a map iff a change that
   * was accepted gave it that map (a field, at that moment, of a map that was put, or the value of an update) and none
   * accepted later overwrote it.
   */
  lemma SharedIffCallersGave(values: Values, changes: seq<Change>, held: map<MapObject, Fields>, m: MapObject)
    requires MapsPut(changes) <= held.Keys
    ensures RefersTo(AfterWrites(values, WritesOf(changes, held)), m) <==>
              SharedStill(values, changes, held, m)
  {
    hide StillShared, StillGiven, RefersTo, WritesOf, AfterWrites, MapsPut;
    SharedIffGiven(values, WritesOf(changes, held), m);
    forall name, field
      ensures StillShared(values, changes, held, name, field, m) <==>
                StillGiven(values, WritesOf(changes, held), name, field, m)
    {
      SharedIsGiven(values, changes, held, name, field, m);
    }
  }

  /** Refused, or of no map but the one put: that one has no map in it now, and an update's value is none. */
  predicate FlatAt(values: Values, changes: seq<Change>, held: map<MapObject, Fields>, i: nat)
    requires MapsPut(changes) <= held.Keys && i < |changes|
  {
    WritesOfAt(changes, held, i);
    match changes[i]
    case Put(n, Ref(p)) =>
      var fields := HeldAfter(changes[..i], held)[p];
      !IsBlank(n) ==> forall f <- fields :: fields[f].Scalar?
    case Update(n, f, value) =>
      UpdateRefusal(AfterWrites(values, WritesOf(changes[..i], held)), n, f).None? ==> value.Scalar?
    case _ => true
  }

  lemma FlatIsFlat(values: Values, changes: seq<Change>, held: map<MapObject, Fields>, i: nat)
    requires MapsPut(changes) <= held.Keys && i < |changes|
    ensures FlatAt(values, changes, held, i) <==>
              var writes := WritesOf(changes, held); Flat(AfterWrites(values, writes[..i]), writes[i])
  {
    hide WritesOf, HeldAfter, AfterWrites, UpdateRefusal, IsBlank;
    WritesOfAt(changes, held, i);
  }

  /** From a record that shares nothing, nothing is ever shared iff no accepted change gives a map at its moment. */
  lemma NothingSharedIffFlat(values: Values, changes: seq<Change>, held: map<MapObject, Fields>)
    requires SharesNothing(values) && MapsPut(changes) <= held.Keys
    ensures forall n :: 0 <= n <= |changes| ==> MapsPut(changes[..n]) <= held.Keys
    ensures (forall n :: 0 <= n <= |changes| ==> SharesNothing(AfterWrites(values, WritesOf(changes[..n], held)))) <==>
              (forall i :: 0 <= i < |changes| ==> FlatAt(values, changes, held, i))
  {
    hide WritesOf, AfterWrites, SharesNothing, FlatAt, Flat;
    var writes := WritesOf(changes, held);
    forall n | 0 <= n <= |changes|
      ensures MapsPut(changes[..n]) <= held.Keys && WritesOf(changes[..n], held) == writes[..n]
    {
      WritesOfAt(changes, held, n);
    }
    forall i | 0 <= i < |changes|
      ensures FlatAt(values, changes, held, i) <==> Flat(AfterWrites(values, writes[..i]), writes[i])
    {
      FlatIsFlat(values, changes, held, i);
    }
    NothingSharedIff(values, writes);
  }

  ghost predicate LeadsFromShared(values: Values, changes: seq<Change>, held: map<MapObject, Fields>,
                                  target: MapObject, heap: set<MapObject>)
    requires MapsPut(changes) <= held.Keys
    reads heap
  {
    exists m <- heap + {target}, path :: SharedStill(values, changes, held, m) && LeadsTo(m, path, target, heap)
  }

  /**
   * A given map can be reached from the record, through any number of maps, iff fields lead to it from a map that a
   * caller gave the record and that is still there.
   */
  lemma ReachableIff(values: Values, changes: seq<Change>, held: map<MapObject, Fields>, target: MapObject,
                     heap: set<MapObject>)
    requires MapsPut(changes) <= held.Keys
    ensures Reachable(AfterWrites(values, WritesOf(changes, held)), target, heap) <==>
              LeadsFromShared(values, changes, held, target, heap)
  {
    hide SharedStill, RefersTo, LeadsTo, WritesOf, AfterWrites, MapsPut;
    var record := AfterWrites(values, WritesOf(changes, held));
    if Reachable(record, target, heap) {
      var m, path :| m in heap + {target} && RefersTo(record, m) && LeadsTo(m, path, target, heap);
      SharedIffCallersGave(values, changes, held, m);
    }
    if LeadsFromShared(values, changes, held, target, heap) {
      var m, path :| m in heap + {target} && SharedStill(values, changes, held, m) && LeadsTo(m, path, target, heap);
      SharedIffCallersGave(values, changes, held, m);
    }
  }

  // ----- the store -------------------------------------------------------------------------------------------

  class InMemorySagaContextStore {
    var records: map<SagaId, Values>

    constructor ()
      ensures records == map[]
    {
      records := map[];
    }

    method Save(sagaId: SagaId, values: Values)
      modifies this
      ensures records == old(records)[sagaId := values]
    {
      records := records[sagaId := values];
    }
  }

  // ----- the context -----------------------------------------------------------------------------------------

  class HarnessSagaContext {
    const sagaId: SagaId
    const store: InMemorySagaContextStore
    var state: map<string, Obj>

    /** The maps of this context's own. */
    ghost function Owned(): set<MapObject>
      reads this
    {
      set name | name in state && state[name].Ref? :: state[name].target
    }

    ghost function Contents(): Values
      reads this, Owned()
    {
      map name | name in state :: FrozenOf(state[name])
    }

    ghost function Recorded(): Values
      reads store
    {
      if sagaId in store.records then store.records[sagaId] else map[]
    }

    /** No two names share a map, and the store is up to date. */
    ghost predicate Valid()
      reads this, store, Owned()
    {
      Contents() == Recorded() && Separate()
    }

    ghost predicate Separate()
      reads this
    {
      forall a <- state, b <- state :: a != b && state[a].Ref? && state[b].Ref? ==> state[a].target != state[b].target
    }

    /** Creating a context of a saga again gives what the store holds, in maps of its own. */
    constructor (sagaId: SagaId, store: InMemorySagaContextStore)
      ensures Valid() && this.sagaId == sagaId && this.store == store
      ensures Contents() == (if sagaId in store.records then store.records[sagaId] else map[])
      ensures fresh(Owned())
    {
      this.sagaId, this.store, this.state := sagaId, store, map[];
      new;
      var values := if sagaId in store.records then store.records[sagaId] else map[];
      var todo := values.Keys;
      while todo != {}
        invariant todo <= values.Keys && state.Keys == values.Keys - todo
        invariant forall n <- state :: state[n].Ref? ==> fresh(state[n].target)
        invariant forall n <- state :: n in values && FrozenOf(state[n]) == values[n]
        invariant forall a <- state, b <- state :: a != b && state[a].Ref? && state[b].Ref? ==>
            state[a].target != state[b].target
        decreases todo
      {
        var name :| name in todo;
        var value := Thawed(values[name]);
        state := state[name := value];
        todo := todo - {name};
      }
      assert Contents() == values;
    }

    /** A mutable copy of a recorded value. */
    static method Thawed(value: Frozen) returns (copy: Obj)
      ensures FrozenOf(copy) == value && (copy.Ref? ==> fresh(copy.target))
    {
      match value
      case Plain(c, t) => copy := Scalar(c, t);
      case Structured(fields) =>
        var m := new MapObject(fields);
        copy := Ref(m);
    }

    method GetState(name: string, asked: Asked) returns (answer: Answer)
      requires Valid()
      ensures answer == Lookup(Recorded(), name, asked)
    {
      if IsBlank(name) {
        return BlankName;
      }
      if name !in state {
        return Missing;
      }
      var value: Frozen;
      match state[name] {
        case Scalar(c, t) => value := Plain(c, t);
        case Ref(m) => value := Structured(m.fields);
      }
      assert Contents()[name] == value;
      answer := if IsInstance(value, asked) then Found(value) else TypeMismatch;
    }

    /** The value is copied in: no map of the caller's becomes part of the state. */
    method PutState(name: string, value: Obj) returns (refusal: Option<Refusal>)
      requires Valid()
      modifies this, store
      ensures Valid() && refusal == (if IsBlank(name) then Some(Blank) else None)
      ensures store.records == (if refusal.Some? then old(store.records)
                                else old(store.records)[sagaId := old(Recorded())[name := old(FrozenOf(value))]])
      ensures forall m <- Owned() :: m in old(Owned()) || fresh(m)
    {
      if IsBlank(name) {
        return Some(Blank);
      }
      ghost var before, frozen := Contents(), FrozenOf(value);
      var copy := value;
      if value.Ref? {
        var m := new MapObject(value.target.fields);
        copy := Ref(m);
      }
      assert Contents() == before && FrozenOf(copy) == frozen;
      state := state[name := copy];
      assert Contents() == before[name := frozen];
      WriteThrough();
      return None;
    }

    /** A refused update changes neither the state nor the store. */
    method UpdateStateAttribute(name: string, field: string, value: Obj) returns (refusal: Option<Refusal>)
      requires Valid()
      modifies this, Owned(), store
      ensures Valid() && refusal == UpdateRefusal(old(Recorded()), name, field)
      ensures refusal.Some? ==> store.records == old(store.records) && Contents() == old(Contents())
      ensures refusal.None? ==>
          store.records == old(store.records)[sagaId := Updated(old(Recorded()), name, field, value)]
      ensures forall m <- Owned() :: m in old(Owned()) || fresh(m)
    {
      if IsBlank(name) || IsBlank(field) {
        return Some(Blank);
      }
      assert name in state ==> Contents()[name] == FrozenOf(state[name]);
      if name in state && state[name].Scalar? {
        return Some(NonStructured);
      }
      ChangeField(name, field, value);
      WriteThrough();
      return None;
    }

    /** In place where the name has a map already, in a new map where it has nothing. */
    method ChangeField(name: string, field: string, value: Obj)
      requires Separate() && (name in state ==> state[name].Ref?)
      modifies `state, Owned()
      ensures Separate() && Contents() == Updated(old(Contents()), name, field, value)
      ensures forall m <- Owned() :: m in old(Owned()) || fresh(m)
    {
      ghost var before := Contents();
      if name in state {
        var m := state[name].target;
        m.fields := m.fields[field := value];
      } else {
        var m := new MapObject(map[field := value]);
        state := state[name := Ref(m)];
      }
      assert Contents() == Updated(before, name, field, value);
    }

    /** Saves a frozen copy of every value. */
    method WriteThrough()
      modifies store
      ensures Contents() == old(Contents())
      ensures store.records == old(store.records)[sagaId := old(Contents())]
    {
      ghost var contents := Contents();
      var copy: Values := map[];
      var todo := state.Keys;
      while todo != {}
        invariant todo <= state.Keys && copy.Keys == state.Keys - todo
        invariant forall n <- copy :: copy[n] == FrozenOf(state[n])
      {
        var name :| name in todo;
        match state[name] {
          case Scalar(c, t) => copy := copy[name := Plain(c, t)];
          case Ref(m) => copy := copy[name := Structured(m.fields)];
        }
        todo := todo - {name};
      }
      assert copy == contents;
      store.Save(sagaId, copy);
      assert Contents() == contents;
    }

    static ghost function HeldIn(changes: seq<Change>): set<MapObject> {
      set c | c in changes && c.ChangeMap? :: c.target
    }

    /** One change; of the callers' maps, only the one it changes is another afterwards. */
    method Make(change: Change, ghost held: map<MapObject, Fields>) returns (ghost w: Write)
      requires Valid() && (change.ChangeMap? ==> change.target !in Owned())
      requires change.Put? && change.value.Ref? ==> change.value.target in held
      modifies this, Owned(), store, HeldIn([change])
      ensures Valid() && Recorded() == Written(old(Recorded()), w)
      ensures (change.Put? && change.value.Ref? ==> held[change.value.target] == old(change.value.target.fields))
              ==> w == WriteOf(change, held)
      ensures change.ChangeMap? ==> change.target.fields == change.fields
      ensures store.records == old(store.records) || store.records == old(store.records)[sagaId := Recorded()]
      ensures forall m <- Owned() :: m in old(Owned()) || fresh(m)
    {
      match change
      case Put(n, value) =>
        w := PutValue(n, FrozenOf(value));
        var refused := PutState(n, value);
      case Update(n, field, value) =>
        w := SetField(n, field, value);
        var refused := UpdateStateAttribute(n, field, value);
      case ChangeMap(target, fields) =>
        w := NoWrite;
        assert change in [change];
        ghost var contents := Contents();
        target.fields := fields;
        assert Contents() == contents;
    }

    /**
     * Any changes, refused ones included, with the callers changing their own maps in between: the record is as the
     * writes say, each map put with the fields it had when it was put. No caller has a map of the context's own.
     */
    method MakeAll(changes: seq<Change>) returns (ghost writes: seq<Write>)
      requires Valid() && HeldIn(changes) !! Owned()
      modifies this, Owned(), store, HeldIn(changes)
      ensures Valid() && |writes| == |changes| && Recorded() == AfterWrites(old(Recorded()), writes)
      ensures MapsPut(changes) !! old(Owned()) ==> writes == WritesOf(changes, old(Holding(MapsPut(changes))))
      ensures OthersKept(old(store.records), store.records)
      ensures forall m <- Owned() :: m in old(Owned()) || fresh(m)
    {
      hide WriteOf, Written, HeldAfter, WritesOf, Valid, MapsPut, OthersKept;
      hide Contents, Separate, Recorded, HeldNow, Owned;
      writes := [];
      ghost var held := Holding(MapsPut(changes));
      NoWritesOf(changes[..0], held);
      assert HeldNow(held, held.Keys) by {
        NowHeld(MapsPut(changes));
      }
      NothingElse(store.records);
      for i := 0 to |changes|
        invariant Valid() && forall m <- Owned() :: m in old(Owned()) || fresh(m)
        invariant |writes| == i && Recorded() == AfterWrites(old(Recorded()), writes)
        invariant MapsPut(changes[..i]) <= held.Keys
        invariant MapsPut(changes) !! old(Owned()) ==> writes == WritesOf(changes[..i], held)
        invariant MapsPut(changes) !! old(Owned()) ==> HeldNow(HeldAfter(changes[..i], held), held.Keys)
        invariant OthersKept(old(store.records), store.records)
      {
        assert changes[i] in changes;
        OneMoreWrite(changes, held, i);
        ghost var records := store.records;
        ghost var now, next := HeldAfter(changes[..i], held), HeldAfter(changes[..i + 1], held);
        ghost var w := MakeNext(changes[i], now, next, held.Keys);
        OursAgain(old(store.records), records, Recorded());
        writes := writes + [w];
        assert writes[..i] == writes[..|writes| - 1];
      }
      assert changes[..|changes|] == changes;
    }

    /** One change, after which the callers' maps still hold what they are said to. */
    method MakeNext(change: Change, ghost held: map<MapObject, Fields>, ghost held': map<MapObject, Fields>,
                    ghost maps: set<MapObject>)
      returns (ghost w: Write)
      requires Valid() && (change.ChangeMap? ==> change.target !in Owned())
      requires change.Put? && change.value.Ref? ==> change.value.target in maps && change.value.target in held
      requires held' == match change
                        case ChangeMap(target, fields) => held[target := fields]
                        case _ => held
      modifies this, Owned(), store, HeldIn([change])
      ensures Valid() && Recorded() == Written(old(Recorded()), w)
      ensures old(HeldNow(held, maps)) ==> w == WriteOf(change, held)
      ensures old(HeldNow(held, maps)) && maps !! old(Owned()) ==> HeldNow(held', maps)
      ensures store.records == old(store.records) || store.records == old(store.records)[sagaId := Recorded()]
      ensures forall m <- Owned() :: m in old(Owned()) || fresh(m)
    {
      hide WriteOf, Written, Valid, Contents, Separate, Recorded;
      w := Make(change, held);
    }

    /** What the maps are said to hold is what they hold. */
    ghost predicate HeldNow(held: map<MapObject, Fields>, maps: set<MapObject>)
      reads maps
    {
      maps <= held.Keys && forall m <- maps :: held[m] == m.fields
    }

    /** The records of other sagas are untouched. */
    ghost predicate OthersKept(before: map<SagaId, Values>, after: map<SagaId, Values>) {
      && (forall other | other != sagaId :: other in after <==> other in before)
      && (forall other <- before :: other != sagaId ==> after[other] == before[other])
    }

    lemma NothingElse(records: map<SagaId, Values>)
      ensures OthersKept(records, records)
    {
    }

    lemma OursAgain(before: map<SagaId, Values>, records: map<SagaId, Values>, values: Values)
      requires OthersKept(before, records)
      ensures OthersKept(before, records[sagaId := values])
    {
    }

    lemma NowHeld(maps: set<MapObject>)
      ensures HeldNow(Holding(maps), maps) && Holding(maps).Keys == maps
    {
    }

    lemma NoWritesOf(changes: seq<Change>, held: map<MapObject, Fields>)
      requires changes == []
      ensures MapsPut(changes) == {} && WritesOf(changes, held) == [] && HeldAfter(changes, held) == held
    {
    }

    lemma OneMoreWrite(changes: seq<Change>, held: map<MapObject, Fields>, i: nat)
      requires MapsPut(changes) <= held.Keys && i < |changes|
      ensures MapsPut(changes[..i + 1]) <= held.Keys && MapsPut(changes[..i]) <= held.Keys
      ensures changes[i] in changes && (changes[i].Put? && changes[i].value.Ref? ==>
                changes[i].value.target in MapsPut(changes) && changes[i].value.target in held)
      ensures WritesOf(changes[..i + 1], held) ==
                WritesOf(changes[..i], held) + [WriteOf(changes[i], HeldAfter(changes[..i], held))]
      ensures HeldAfter(changes[..i + 1], held) ==
                match changes[i]
                case ChangeMap(target, fields) => HeldAfter(changes[..i], held)[target := fields]
                case _ => HeldAfter(changes[..i], held)
    {
      assert changes[..i + 1][..i] == changes[..i];
      assert forall c <- changes[..i + 1] :: c in changes;
    }

    /** Which maps the record shares with the callers after any changes: exactly those they gave it and left there. */
    method MakeAllShares(changes: seq<Change>, ghost m: MapObject)
      requires Valid() && HeldIn(changes) !! Owned() && MapsPut(changes) !! Owned()
      modifies this, Owned(), store, HeldIn(changes)
      ensures Valid() && (RefersTo(Recorded(), m) <==>
                SharedStill(old(Recorded()), changes, old(Holding(MapsPut(changes))), m))
    {
      hide RefersTo, SharedStill, WritesOf, MapsPut, Valid;
      ghost var values, held := Recorded(), Holding(MapsPut(changes));
      ghost var writes := MakeAll(changes);
      SharedIffCallersGave(values, changes, held, m);
    }

    /** After any changes a context created again answers as this one does. */
    method ChangeThenRecreate(changes: seq<Change>, name: string, asked: Asked) returns (here: Answer, there: Answer)
      requires Valid() && HeldIn(changes) !! Owned()
      modifies this, Owned(), store, HeldIn(changes)
      ensures here == there
      ensures OthersKept(old(store.records), store.records)
    {
      ghost var writes := MakeAll(changes);
      here := GetState(name, asked);
      var again := new HarnessSagaContext(sagaId, store);
      there := again.GetState(name, asked);
    }

    /** A caller that changes the map it put changes nothing the context or the store holds. */
    method CallerChangesItsMap(name: string, caller: MapObject, fields: map<string, Obj>)
      requires Valid() && !IsBlank(name) && caller !in Owned()
      modifies this, store, caller
      ensures Valid() && Recorded() == old(Recorded())[name := Structured(old(caller.fields))]
    {
      var refused := PutState(name, Ref(caller));
      assert caller !in Owned();
      ghost var contents := Contents();
      caller.fields := fields;
      assert Contents() == contents;
    }

    /** The copy is one level deep: a map inside the map that was put stays the caller's. */
    method InnerMapIsShared(name: string, field: string, inner: MapObject, fields: map<string, Obj>)
      returns (answer: Answer)
      requires Valid() && !IsBlank(name) && inner !in Owned()
      modifies this, store, inner
      ensures answer == Found(Structured(map[field := Ref(inner)])) && inner.fields == fields
    {
      var outer := new MapObject(map[field := Ref(inner)]);
      var refused := PutState(name, Ref(outer));
      ghost var contents := Contents();
      inner.fields := fields;
      assert Contents() == contents;
      answer := GetState(name, AnyMap);
    }

    /** An update does not copy at all: a map given as the new value of a field stays the caller's. */
    method UpdatedMapIsShared(name: string, field: string, caller: MapObject, fields: map<string, Obj>)
      returns (answer: Answer)
      requires Valid() && UpdateRefusal(Recorded(), name, field).None? && caller !in Owned()
      modifies this, Owned(), store, caller
      ensures answer.Found? && answer.value.Structured? && field in answer.value.fields
      ensures answer.value.fields[field] == Ref(caller) && caller.fields == fields
    {
      var refused := UpdateStateAttribute(name, field, Ref(caller));
      ghost var contents := Contents();
      caller.fields := fields;
      assert Contents() == contents;
      answer := GetState(name, AnyMap);
    }
  }
}
