/**
 * SagaInstanceRows: step records and aggregate references to plain JSON values and back. The JSON layer keeps
 * strings, lists and the entries of string-keyed objects, but not the order of an object's entries.
 */
module StepsCodec {
  import opened JsonCodec
  import opened Spi

  const STATUS := "status"
  const TOUCHED_AGGREGATES := "touchedAggregates"
  const AGGREGATE_TYPE := "aggregateType"
  const AGGREGATE_ID := "aggregateId"

  function StatusName(status: StepStatus): string {
    match status
    case NotRun => "NOT_RUN"
    case Completed => "COMPLETED"
  }

  /** parseEnum(StepStatus.class, ...) */
  function ParseStatus(v: Value): (r: Option<StepStatus>)
    ensures forall s :: v == Str(StatusName(s)) <==> r == Some(s)
  {
    assert StatusName(StepStatus.NotRun) != StatusName(StepStatus.Completed);
    if v == Str("NOT_RUN") then Some(StepStatus.NotRun)
    else if v == Str("COMPLETED") then Some(StepStatus.Completed)
    else None
  }

  /** Map.get on an object. */
  function Get(entries: seq<Entry>, name: string): Option<Value> {
    if entries == [] then None
    else
      var e := entries[|entries| - 1];
      if e.key == Text(name) then Some(e.value) else Get(entries[..|entries| - 1], name)
  }

  // ----- the plain forms, whatever the order of an object's entries ------------------------------------------

  predicate ReferenceForm(v: Value, a: AggregateReference) {
    && v.Obj?
    && Get(v.entries, AGGREGATE_TYPE) == Some(Str(a.aggregateType))
    && Get(v.entries, AGGREGATE_ID) == Some(Str(a.aggregateId))
  }

  predicate ReferencesForm(v: Value, references: seq<AggregateReference>) {
    && v.Arr? && |v.elements| == |references|
    && forall i :: 0 <= i < |references| ==> ReferenceForm(v.elements[i], references[i])
  }

  predicate RecordForm(v: Value, record: StepRecord) {
    && v.Obj?
    && Get(v.entries, STATUS) == Some(Str(StatusName(record.status)))
    && Get(v.entries, TOUCHED_AGGREGATES).Some?
    && ReferencesForm(Get(v.entries, TOUCHED_AGGREGATES).value, record.touched)
  }

  predicate EntriesForm(entries: seq<Entry>, steps: map<StepName, StepRecord>) {
    && UniqueKeys(entries)
    && (forall i :: 0 <= i < |entries| ==>
          entries[i].key.Text? && entries[i].key.name in steps &&
              RecordForm(entries[i].value, steps[entries[i].key.name]))
  }

  function Names(entries: seq<Entry>): set<StepName> {
    set e | e in entries && e.key.Text? :: e.key.name
  }

  predicate StepsForm(v: Value, steps: map<StepName, StepRecord>) {
    v.Obj? && EntriesForm(v.entries, steps) && Names(v.entries) == steps.Keys
  }

  lemma NamesOfOneMore(entries: seq<Entry>, e: Entry)
    requires e.key.Text?
    ensures Names(entries + [e]) == Names(entries) + {e.key.name}
  {
    assert e in entries + [e];
  }

  // ----- encoding --------------------------------------------------------------------------------------------

  method ToPlain(references: seq<AggregateReference>) returns (plain: Value)
    ensures ReferencesForm(plain, references) && Supported(plain)
  {
    var elements := [];
    for i := 0 to |references|
      invariant ReferencesForm(Arr(elements), references[..i])
      invariant forall e <- elements :: Supported(e)
    {
      var fields := [Entry(Text(AGGREGATE_TYPE), Str(references[i].aggregateType)),
                     Entry(Text(AGGREGATE_ID), Str(references[i].aggregateId))];
      assert fields[..1] == [fields[0]];
      assert ReferenceForm(Obj(fields), references[i]);
      elements := elements + [Obj(fields)];
    }
    plain := Arr(elements);
    assert references[..|references|] == references;
  }

  /** Every value encodeSteps passes to the JSON layer is supported; its entries come in the map's own order. */
  method EncodeSteps(steps: map<StepName, StepRecord>) returns (plain: Value)
    ensures StepsForm(plain, steps) && Supported(plain)
  {
    hide EntriesForm, RecordForm, Supported;
    var entries: seq<Entry> := [];
    NoEntries(steps);
    var todo := steps.Keys;
    while todo != {}
      invariant todo <= steps.Keys
      invariant EntriesForm(entries, steps) && Supported(Obj(entries))
      invariant Names(entries) == steps.Keys - todo
    {
      var n :| n in todo;
      var step := EncodeStep(steps[n]);
      OneMoreEntry(entries, n, step, steps);
      entries := entries + [Entry(Text(n), step)];
      todo := todo - {n};
    }
    plain := Obj(entries);
  }

  lemma NoEntries(steps: map<StepName, StepRecord>)
    ensures EntriesForm([], steps) && Supported(Obj([])) && Names([]) == {}
  {
  }

  lemma OneMoreEntry(entries: seq<Entry>, n: StepName, step: Value, steps: map<StepName, StepRecord>)
    requires EntriesForm(entries, steps) && Supported(Obj(entries)) && n in steps && n !in Names(entries)
    requires RecordForm(step, steps[n]) && Supported(step)
    ensures EntriesForm(entries + [Entry(Text(n), step)], steps) && Supported(Obj(entries + [Entry(Text(n), step)]))
    ensures Names(entries + [Entry(Text(n), step)]) == Names(entries) + {n}
  {
    hide RecordForm;
    NamesOfOneMore(entries, Entry(Text(n), step));
    KeysNamed(entries);
  }

  lemma KeysNamed(entries: seq<Entry>)
    ensures forall i :: 0 <= i < |entries| && entries[i].key.Text? ==> entries[i].key.name in Names(entries)
  {
    assert forall i :: 0 <= i < |entries| ==> entries[i] in entries;
  }

  method EncodeStep(record: StepRecord) returns (step: Value)
    ensures RecordForm(step, record) && Supported(step)
  {
    var touched := ToPlain(record.touched);
    var fields := [Entry(Text(STATUS), Str(StatusName(record.status))), Entry(Text(TOUCHED_AGGREGATES), touched)];
    assert fields[..1] == [fields[0]];
    step := Obj(fields);
  }

  // ----- decoding --------------------------------------------------------------------------------------------

  function DecodedReference(v: Value): Option<AggregateReference> {
    if !v.Obj? then None
    else
      var t, i := Get(v.entries, AGGREGATE_TYPE), Get(v.entries, AGGREGATE_ID);
      if t.Some? && t.value.Str? && i.Some? && i.value.Str? then Some(AggregateReference(t.value.s, i.value.s))
          else None
  }

  function DecodedReferences(elements: seq<Value>): Option<seq<AggregateReference>> {
    if elements == [] then Some([])
    else
      var front, last := DecodedReferences(elements[..|elements| - 1]), DecodedReference(elements[|elements| - 1]);
      if front.None? || last.None? then None else Some(front.value + [last.value])
  }

  function DecodedStep(v: Value): Option<StepRecord> {
    if !v.Obj? then None
    else
      var status, touched := Get(v.entries, STATUS), Get(v.entries, TOUCHED_AGGREGATES);
      if status.None? || ParseStatus(status.value).None? || touched.None? || !touched.value.Arr? then None
      else
        var references := DecodedReferences(touched.value.elements);
        if references.None? then None else NewStepRecord(ParseStatus(status.value).value, references.value)
  }

  function DecodedEntries(entries: seq<Entry>): Option<map<StepName, StepRecord>> {
    if entries == [] then Some(map[])
    else
      var e := entries[|entries| - 1];
      var front, step := DecodedEntries(entries[..|entries| - 1]), DecodedStep(e.value);
      if front.None? || step.None? || !e.key.Text? then None else Some(front.value[e.key.name := step.value])
  }

  /** aggregatesFromPlain: None where it throws. */
  method AggregatesFromPlain(plain: Value) returns (references: Option<seq<AggregateReference>>)
    ensures references == if plain.Arr? then DecodedReferences(plain.elements) else None
  {
    if !plain.Arr? {
      return None;
    }
    var decoded := [];
    for i := 0 to |plain.elements|
      invariant DecodedReferences(plain.elements[..i]) == Some(decoded)
    {
      assert plain.elements[..i + 1][..i] == plain.elements[..i];
      var reference := DecodedReference(plain.elements[i]);
      if reference.None? {
        RejectedReference(plain.elements, i + 1);
        return None;
      }
      decoded := decoded + [reference.value];
    }
    assert plain.elements[..|plain.elements|] == plain.elements;
    return Some(decoded);
  }

  lemma {:induction false} RejectedReference(elements: seq<Value>, n: nat)
    requires n <= |elements| && DecodedReferences(elements[..n]).None?
    ensures DecodedReferences(elements).None?
  {
    if n < |elements| {
      var front := elements[..|elements| - 1];
      assert front[..n] == elements[..n];
      RejectedReference(front, n);
    } else {
      assert elements[..n] == elements;
    }
  }

  /** decodeSteps: None where it throws. */
  method DecodeSteps(plain: Value) returns (steps: Option<map<StepName, StepRecord>>)
    ensures steps == if plain.Obj? then DecodedEntries(plain.entries) else None
  {
    if !plain.Obj? {
      return None;
    }
    var decoded := map[];
    for i := 0 to |plain.entries|
      invariant DecodedEntries(plain.entries[..i]) == Some(decoded)
    {
      var e := plain.entries[i];
      assert plain.entries[..i + 1][..i] == plain.entries[..i];
      var step := DecodeStep(e.value);
      if step.None? || !e.key.Text? {
        RejectedEntry(plain.entries, i + 1);
        return None;
      }
      decoded := decoded[e.key.name := step.value];
    }
    assert plain.entries[..|plain.entries|] == plain.entries;
    return Some(decoded);
  }

  method DecodeStep(plain: Value) returns (step: Option<StepRecord>)
    ensures step == DecodedStep(plain)
  {
    if !plain.Obj? {
      return None;
    }
    var status, touched := Get(plain.entries, STATUS), Get(plain.entries, TOUCHED_AGGREGATES);
    if status.None? || ParseStatus(status.value).None? || touched.None? {
      return None;
    }
    var references := AggregatesFromPlain(touched.value);
    if references.None? {
      return None;
    }
    return NewStepRecord(ParseStatus(status.value).value, references.value);
  }

  lemma {:induction false} RejectedEntry(entries: seq<Entry>, n: nat)
    requires n <= |entries| && DecodedEntries(entries[..n]).None?
    ensures DecodedEntries(entries).None?
  {
    if n < |entries| {
      var front := entries[..|entries| - 1];
      assert front[..n] == entries[..n];
      RejectedEntry(front, n);
    } else {
      assert entries[..n] == entries;
    }
  }

  // ----- round trip ------------------------------------------------------------------------------------------

  lemma {:induction false} ReferencesRoundTrip(v: Value, references: seq<AggregateReference>)
    requires ReferencesForm(v, references)
    ensures DecodedReferences(v.elements) == Some(references)
    decreases |references|
  {
    if references != [] {
      var n := |references| - 1;
      ReferencesRoundTrip(Arr(v.elements[..n]), references[..n]);
      assert references == references[..n] + [references[n]];
      assert DecodedReference(v.elements[n]) == Some(references[n]);
    }
  }

  /** A decoded list has no duplicates to drop, so deduplicating it once more changes nothing. */
  lemma RecordRoundTrip(v: Value, record: StepRecord)
    requires RecordForm(v, record) && record.Valid()
    ensures DecodedStep(v) == Some(record)
  {
    ReferencesRoundTrip(Get(v.entries, TOUCHED_AGGREGATES).value, record.touched);
    DeduplicatedIdentity(record.touched);
  }

  function Restricted(steps: map<StepName, StepRecord>, names: set<StepName>): map<StepName, StepRecord> {
    map n | n in steps && n in names :: steps[n]
  }

  lemma {:induction false} EntriesRoundTrip(entries: seq<Entry>, steps: map<StepName, StepRecord>)
    requires EntriesForm(entries, steps) && forall n <- steps :: steps[n].Valid()
    ensures DecodedEntries(entries) == Some(Restricted(steps, Names(entries)))
  {
    hide RecordForm, DecodedStep, Names, Restricted;
    if entries != [] {
      var k := |entries| - 1;
      var e := entries[k];
      EntriesRoundTrip(entries[..k], steps);
      RecordRoundTrip(e.value, steps[e.key.name]);
      NamesOfOneMore(entries[..k], e);
      assert entries == entries[..k] + [e];
      RestrictedToOneMore(steps, Names(entries[..k]), e.key.name);
    } else {
      NoNames(steps);
    }
  }

  lemma RestrictedToOneMore(steps: map<StepName, StepRecord>, names: set<StepName>, n: StepName)
    requires n in steps
    ensures Restricted(steps, names + {n}) == Restricted(steps, names)[n := steps[n]]
  {
  }

  lemma NoNames(steps: map<StepName, StepRecord>)
    ensures Restricted(steps, Names([])) == map[]
  {
  }

  /** decodeSteps(encodeSteps(m)) = m: every plain form of the step map decodes to it. */
  lemma StepsRoundTrip(plain: Value, steps: map<StepName, StepRecord>)
    requires StepsForm(plain, steps) && forall n <- steps :: steps[n].Valid()
    ensures DecodedEntries(plain.entries) == Some(steps)
  {
    hide RecordForm, DecodedEntries;
    EntriesRoundTrip(plain.entries, steps);
    assert Restricted(steps, steps.Keys) == steps;
  }

  // ----- the JSON layer may reorder the entries of an object --------------------------------------------------

  lemma {:induction false} GetOnly(entries: seq<Entry>, i: nat, name: string)
    requires UniqueKeys(entries) && i < |entries| && entries[i].key == Text(name)
    ensures Get(entries, name) == Some(entries[i].value)
  {
    if i < |entries| - 1 {
      GetOnly(entries[..|entries| - 1], i, name);
    }
  }

  lemma {:induction false} GetFound(entries: seq<Entry>, name: string) returns (i: nat)
    requires Get(entries, name).Some?
    ensures i < |entries| && entries[i] == Entry(Text(name), Get(entries, name).value)
  {
    if entries[|entries| - 1].key == Text(name) {
      i := |entries| - 1;
    } else {
      i := GetFound(entries[..|entries| - 1], name);
    }
  }

  lemma ReorderedGet(v: Value, w: Value, name: string)
    requires v.Obj? && Reordered(v, w) && Get(v.entries, name).Some?
    ensures w.Obj? && Get(w.entries, name).Some?
    ensures Reordered(Get(v.entries, name).value, Get(w.entries, name).value)
  {
    hide Reordered;
    var i := GetFound(v.entries, name);
    var j := ReorderedTo(v, w, i);
    GetOnly(w.entries, j, name);
  }

  lemma ReferenceFormReordered(v: Value, w: Value, a: AggregateReference)
    requires Reordered(v, w) && ReferenceForm(v, a)
    ensures ReferenceForm(w, a)
  {
    ReorderedGet(v, w, AGGREGATE_TYPE);
    ReorderedGet(v, w, AGGREGATE_ID);
  }

  lemma RecordFormReordered(v: Value, w: Value, record: StepRecord)
    requires Reordered(v, w) && RecordForm(v, record)
    ensures RecordForm(w, record)
  {
    ReorderedGet(v, w, STATUS);
    ReorderedGet(v, w, TOUCHED_AGGREGATES);
    var t, u := Get(v.entries, TOUCHED_AGGREGATES).value, Get(w.entries, TOUCHED_AGGREGATES).value;
    forall i | 0 <= i < |record.touched| ensures ReferenceForm(u.elements[i], record.touched[i]) {
      ReferenceFormReordered(t.elements[i], u.elements[i], record.touched[i]);
    }
  }

  lemma StepsFormReordered(v: Value, w: Value, steps: map<StepName, StepRecord>)
    requires Reordered(v, w) && StepsForm(v, steps)
    ensures StepsForm(w, steps)
  {
    hide RecordForm, Reordered, Names;
    ReorderedObject(v, w);
    forall j | 0 <= j < |w.entries|
      ensures w.entries[j].key.Text? && w.entries[j].key.name in steps
              && RecordForm(w.entries[j].value, steps[w.entries[j].key.name])
    {
      var i := ReorderedFrom(v, w, j);
      RecordFormReordered(v.entries[i].value, w.entries[j].value, steps[v.entries[i].key.name]);
    }
    SameNames(v, w);
  }

  lemma ReorderedObject(v: Value, w: Value)
    requires v.Obj? && Reordered(v, w)
    ensures w.Obj? && UniqueKeys(v.entries) && UniqueKeys(w.entries)
  {
  }

  lemma NamedBy(entries: seq<Entry>, n: StepName)
    ensures n in Names(entries) <==> exists i :: 0 <= i < |entries| && entries[i].key == Text(n)
  {
    if n in Names(entries) {
      var e :| e in entries && e.key.Text? && e.key.name == n;
      var i :| 0 <= i < |entries| && entries[i] == e;
    }
    if i :| 0 <= i < |entries| && entries[i].key == Text(n) {
      assert entries[i] in entries;
    }
  }

  lemma SameNames(v: Value, w: Value)
    requires v.Obj? && w.Obj? && Reordered(v, w)
    ensures Names(w.entries) == Names(v.entries)
  {
    hide Reordered, Names;
    forall n ensures n in Names(w.entries) <==> n in Names(v.entries) {
      NamedBy(v.entries, n);
      NamedBy(w.entries, n);
      if i :| 0 <= i < |v.entries| && v.entries[i].key == Text(n) {
        var j := ReorderedTo(v, w, i);
      }
      if j :| 0 <= j < |w.entries| && w.entries[j].key == Text(n) {
        var i := ReorderedFrom(v, w, j);
      }
    }
  }

  /** The round trip holds whatever order the JSON layer gives the entries of any object, at any depth. */
  lemma StepsRoundTripReordered(plain: Value, stored: Value, steps: map<StepName, StepRecord>)
    requires StepsForm(plain, steps) && Reordered(plain, stored) && forall n <- steps :: steps[n].Valid()
    ensures stored.Obj? && DecodedEntries(stored.entries) == Some(steps)
  {
    hide Reordered;
    StepsFormReordered(plain, stored, steps);
    StepsRoundTrip(stored, steps);
  }

  // ----- the stored form, spelled out ------------------------------------------------------------------------

  /** The stored object has, for each step and nothing else, its status by name and its references by type and id. */
  lemma StoredForm(v: Value, steps: map<StepName, StepRecord>, n: StepName)
    requires StepsForm(v, steps)
    ensures v.Obj? && (n in steps <==> exists i :: 0 <= i < |v.entries| && v.entries[i].key == Text(n))
    ensures forall i :: 0 <= i < |v.entries| && v.entries[i].key == Text(n) ==>
              && n in steps && v.entries[i].value.Obj?
              && var fields := v.entries[i].value.entries;
                 && Get(fields, "status")
                    == Some(Str(if steps[n].status == StepStatus.Completed then "COMPLETED" else "NOT_RUN"))
                 && Get(fields, "touchedAggregates").Some? && Get(fields, "touchedAggregates").value.Arr?
                 && var stored := Get(fields, "touchedAggregates").value.elements;
                    && |stored| == |steps[n].touched|
                    && forall j :: 0 <= j < |stored| ==>
                         && stored[j].Obj?
                         && Get(stored[j].entries, "aggregateType") == Some(Str(steps[n].touched[j].aggregateType))
                         && Get(stored[j].entries, "aggregateId") == Some(Str(steps[n].touched[j].aggregateId))
  {
    hide Get;
    if n in steps {
      assert n in Names(v.entries);
      var e :| e in v.entries && e.key.Text? && e.key.name == n;
      var i :| 0 <= i < |v.entries| && v.entries[i] == e;
    }
  }

  // ----- what decodes ----------------------------------------------------------------------------------------

  lemma DecodedReferenceIff(v: Value, a: AggregateReference)
    ensures DecodedReference(v) == Some(a) <==> ReferenceForm(v, a)
  {
  }

  /** A list decodes iff it is the plain form of some references, and then to those. */
  lemma {:induction false} DecodedReferencesIff(elements: seq<Value>, references: seq<AggregateReference>)
    ensures DecodedReferences(elements) == Some(references) <==> ReferencesForm(Arr(elements), references)
  {
    if elements != [] && references != [] {
      var m, n := |elements| - 1, |references| - 1;
      DecodedReferencesIff(elements[..m], references[..n]);
      DecodedReferenceIff(elements[m], references[n]);
      assert references == references[..n] + [references[n]];
      if DecodedReferences(elements) == Some(references) {
        var front := DecodedReferences(elements[..m]).value;
        assert front == references[..n];
        assert forall i :: 0 <= i < n ==> ReferenceForm(elements[..m][i], references[..n][i]);
      }
      if ReferencesForm(Arr(elements), references) {
        assert forall i :: 0 <= i < n ==> elements[..m][i] == elements[i] && references[..n][i] == references[i];
      }
    }
  }

  /**
   * A step decodes iff it is an object with the name of a status and the plain form of some references, of which a step
   * that has not run has none; each of the references is kept once.
   */
  lemma DecodedStepIff(v: Value, record: StepRecord)
    ensures DecodedStep(v) == Some(record) <==>
              exists references ::
                && v.Obj? && Get(v.entries, "status") == Some(Str(StatusName(record.status)))
                && Get(v.entries, "touchedAggregates").Some?
                && ReferencesForm(Get(v.entries, "touchedAggregates").value, references)
                && record.touched == Deduplicated(references) && (record.status.NotRun? ==> references == [])
  {
    hide Get, ReferencesForm, Deduplicated, StatusName, ParseStatus;
    if v.Obj? && Get(v.entries, TOUCHED_AGGREGATES).Some? {
      var touched := Get(v.entries, TOUCHED_AGGREGATES).value;
      forall references
        ensures ReferencesForm(touched, references) <==>
                  touched.Arr? && DecodedReferences(touched.elements) == Some(references)
      {
        ListForm(touched, references);
        if touched.Arr? {
          DecodedReferencesIff(touched.elements, references);
        }
      }
      if DecodedStep(v) == Some(record) {
        var references := DecodedReferences(touched.elements).value;
        assert ReferencesForm(touched, references);
        StepOf(v, record.status, references);
      }
      if references :| Get(v.entries, STATUS) == Some(Str(StatusName(record.status)))
                       && ReferencesForm(touched, references) && record.touched == Deduplicated(references)
                       && (record.status.NotRun? ==> references == []) {
        StepOf(v, record.status, references);
      }
    }
  }

  lemma ListForm(v: Value, references: seq<AggregateReference>)
    ensures ReferencesForm(v, references) ==> v.Arr?
    ensures v.Arr? ==> v == Arr(v.elements)
  {
  }

  lemma StepOf(v: Value, status: StepStatus, references: seq<AggregateReference>)
    requires v.Obj? && Get(v.entries, TOUCHED_AGGREGATES).Some? && Get(v.entries, TOUCHED_AGGREGATES).value.Arr?
    requires DecodedReferences(Get(v.entries, TOUCHED_AGGREGATES).value.elements) == Some(references)
    ensures Get(v.entries, STATUS) == Some(Str(StatusName(status))) ==>
              DecodedStep(v) == if status.NotRun? && references != [] then None
                                else Some(StepRecord(status, Deduplicated(references)))
    ensures DecodedStep(v).Some? && DecodedStep(v).value.status == status ==>
              Get(v.entries, STATUS) == Some(Str(StatusName(status)))
  {
  }

  /** A step map decodes iff each key is a string and each entry a step; of entries with one key the last counts. */
  lemma {:induction false} DecodedEntriesIff(entries: seq<Entry>)
    ensures DecodedEntries(entries).Some? <==>
              forall i :: 0 <= i < |entries| ==> entries[i].key.Text? && DecodedStep(entries[i].value).Some?
    ensures DecodedEntries(entries).Some? ==>
              forall n ::
                (n in DecodedEntries(entries).value <==> Get(entries, n).Some?)
                && (n in DecodedEntries(entries).value ==>
                      DecodedStep(Get(entries, n).value) == Some(DecodedEntries(entries).value[n]))
  {
    hide DecodedStep;
    if entries != [] {
      DecodedEntriesIff(entries[..|entries| - 1]);
      assert forall i :: 0 <= i < |entries| - 1 ==> entries[..|entries| - 1][i] == entries[i];
    }
  }
}
