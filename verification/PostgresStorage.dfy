/**
 * PostgresStorageProvider as one caller meets it: each operation runs its statements in order on a connection
 * and commits, or rolls back and leaves the tables as they were. SaveGuarantees has the concurrent behaviour.
 */
module PostgresStorage {
  import opened JsonCodec
  import opened Spi
  import opened Ordering
  import opened LifecycleHistory
  import opened SequenceNumbers
  import opened Tables

  datatype SaveResult = Stored | Conflict(violation: Violation) | LostFirstSave | UnsupportedState

  /** The instances associated with a value, in id order. */
  ghost predicate AnswersLookup(found: seq<SagaInstance>, db: Database, property: string, value: string) {
    && (forall i, j :: 0 <= i < j < |found| ==> Less(found[i].sagaId, found[j].sagaId))
    && (forall instance <- found ::
          Load(db, instance.sagaId) == Some(instance) && Associated(instance, property, value))
    && (forall id <- db.instances :: Associated(Load(db, id).value, property, value) ==> Load(db, id).value in found)
  }

  /** Every stored row is a row: its associations are rows of their own table. */
  predicate IdsMatch(db: Database) {
    forall id <- db.instances :: db.instances[id].sagaId == id
  }

  class PostgresStorageProvider {
    var db: Database

    ghost predicate Valid()
      reads this
    {
      ForeignKeys(db) && IdsMatch(db)
    }

    constructor ()
      ensures Valid() && db == EMPTY
    {
      db := EMPTY;
    }

    method Save(instance: SagaInstance) returns (result: SaveResult)
      requires Valid()
      modifies this
      ensures Valid()
      ensures result == Stored <==> Accepted(old(db), instance)
      ensures result == Stored <==>
                && Supported(instance.state)
                && (instance.sagaId in old(db).instances ==> Forward(Load(old(db), instance.sagaId).value, instance))
      ensures result == UnsupportedState <==>
                && !Supported(instance.state)
                && (instance.sagaId in old(db).instances ==> Forward(Load(old(db), instance.sagaId).value, instance))
      ensures result == Stored ==> db == Written(old(db), instance, NextSequence(old(db), instance.sagaId))
      ensures result != Stored ==> db == old(db)
      ensures result.Conflict? <==> instance.sagaId in old(db).instances
                                    && !Forward(Load(old(db), instance.sagaId).value, instance)
    {
      hide Derived, Forward, NextSequence, Supported, RowsOf, Keyed;
      var id := instance.sagaId;
      var previous := LockPrevious(id);
      if previous.Some? {
        var violation := RequireForwardTransition(previous.value, instance);
        if violation.Some? {
          return Conflict(violation.value);
        }
      }
      var next := NextSequenceNumber(id);
      var entries := Derive(previous, instance, next);
      if !Supported(instance.state) {
        return UnsupportedState;
      }
      var inserted := id !in db.instances;
      var work := db.(instances := db.instances[id := Columns(instance)]);
      if previous.None? && !inserted {
        return LostFirstSave;
      }
      var associations := ReplaceAssociations(work.associations, instance);
      var history := InsertHistory(work.history, entries);
      work := work.(associations := associations, history := history);
      WrittenForeignKeys(db, instance, next);
      db := work;
      return Stored;
    }

    method LockPrevious(id: SagaId) returns (previous: Option<SagaInstance>)
      ensures previous == Load(db, id)
    {
      if id !in db.instances {
        return None;
      }
      return Some(FromRow(db.instances[id], RowsOf(db.associations, id)));
    }

    method NextSequenceNumber(id: SagaId) returns (next: int)
      ensures next == NextSequence(db, id)
    {
      next := 0;
      var todo, seen := KeysOf(db.history, id), {};
      while todo != {}
        invariant todo !! seen && todo + seen == KeysOf(db.history, id)
        invariant IsNextNumber(seen, next)
      {
        var key :| key in todo;
        NextWithOneMore(seen, next, key);
        next := if seen == {} || next <= key.1 then key.1 + 1 else next;
        todo, seen := todo - {key}, seen + {key};
      }
      NextNumberUnique(seen, next);
    }

    /** DELETE_ASSOCIATIONS, then one INSERT_ASSOCIATION per association, in whatever order the map has them. */
    static method ReplaceAssociations(table: map<(SagaId, string), string>, instance: SagaInstance)
      returns (rows: map<(SagaId, string), string>)
      ensures rows == (table - KeysOf(table, instance.sagaId)) + Keyed(instance.sagaId, instance.associations)
    {
      hide KeysOf, Keyed;
      var id := instance.sagaId;
      ghost var cleared := table - KeysOf(table, id);
      rows := table - KeysOf(table, id);
      var todo := instance.associations.Keys;
      NoRowYet(cleared, id, instance.associations - todo);
      while todo != {}
        invariant todo <= instance.associations.Keys
        invariant rows == cleared + Keyed(id, instance.associations - todo)
      {
        var property :| property in todo;
        OneMoreRow(cleared, id, instance.associations, todo, property);
        rows := rows[(id, property) := instance.associations[property]];
        todo := todo - {property};
      }
      assert instance.associations - todo == instance.associations;
    }

    static lemma NoRowYet(rows: map<(SagaId, string), string>, id: SagaId, none: Associations)
      requires none == map[]
      ensures rows + Keyed(id, none) == rows
    {
    }

    static lemma OneMoreRow(rows: map<(SagaId, string), string>, id: SagaId, all: Associations, todo: set<string>,
                            property: string)
      requires property in todo && todo <= all.Keys
      ensures (rows + Keyed(id, all - todo))[(id, property) := all[property]] ==
          rows + Keyed(id, all - (todo - {property}))
    {
    }

    static method InsertHistory(history: map<(SagaId, int), LifecycleEntry>, entries: seq<LifecycleEntry>)
      returns (rows: map<(SagaId, int), LifecycleEntry>)
      ensures rows == history + EntryRows(entries)
    {
      rows := history;
      for i := 0 to |entries|
        invariant rows == history + EntryRows(entries[..i])
      {
        rows := rows[(entries[i].sagaId, entries[i].sequenceNumber) := entries[i]];
        assert entries[..i + 1][..i] == entries[..i];
      }
      assert entries[..|entries|] == entries;
    }

    method Delete(id: SagaId)
      requires Valid()
      modifies this
      ensures Valid()
      ensures db == if id in old(db).instances then Deleted(old(db), id) else old(db)
    {
      if id in db.instances {
        DeletedRows(db, id);
        db := Deleted(db, id);
      }
    }

    method FindById(id: SagaId) returns (found: Option<SagaInstance>)
      ensures found == Load(db, id)
    {
      found := LockPrevious(id);
    }

    /** FIND_BY_ASSOCIATION: through the association rows alone, joined with their instances, ordered by id. */
    method FindByAssociation(property: string, value: string) returns (found: seq<SagaInstance>)
      requires Valid()
      ensures AnswersLookup(found, db, property, value)
    {
      var ids := MatchingIds(property, value);
      found := [];
      for i := 0 to |ids|
        invariant |found| == i
        invariant forall j :: 0 <= j < i ==> Load(db, ids[j]) == Some(found[j])
      {
        assert ids[i] in ids;
        var instance := LockPrevious(ids[i]);
        found := found + [instance.value];
      }
      JoinAnswers(found, ids, property, value);
    }

    /** The saga ids of the association rows with the given property and value. */
    method MatchingIds(property: string, value: string) returns (ids: seq<SagaId>)
      requires Valid()
      ensures StrictlySorted(ids)
      ensures forall id :: id in ids <==> (id, property) in db.associations && db.associations[(id, property)] == value
    {
      ids := [];
      var todo := db.associations.Keys;
      while todo != {}
        invariant todo <= db.associations.Keys && StrictlySorted(ids)
        invariant forall id :: id in ids <==> (id, property) in db.associations.Keys - todo
                                              && db.associations[(id, property)] == value
      {
        var key :| key in todo;
        if key.1 == property && db.associations[key] == value {
          InsertSorted(ids, key.0);
          ids := Insert(ids, key.0);
        }
        assert key == (key.0, key.1);
        todo := todo - {key};
      }
    }

    /** The index agrees with the associations of the instances it points to. */
    lemma JoinAnswers(found: seq<SagaInstance>, ids: seq<SagaId>, property: string, value: string)
      requires Valid() && StrictlySorted(ids) && |found| == |ids|
      requires forall id :: id in ids <==> (id, property) in db.associations && db.associations[(id, property)] == value
      requires forall j :: 0 <= j < |ids| ==> Load(db, ids[j]) == Some(found[j])
      ensures AnswersLookup(found, db, property, value)
    {
      forall j | 0 <= j < |ids|
        ensures found[j].sagaId == ids[j] && Associated(found[j], property, value) {
        assert ids[j] in ids;
        assert ids[j] in db.instances;
      }
      forall id | id in db.instances && Associated(Load(db, id).value, property, value)
        ensures Load(db, id).value in found {
        assert property in RowsOf(db.associations, id);
        assert id in ids;
        var j :| 0 <= j < |ids| && ids[j] == id;
        assert found[j] in found;
      }
    }
  }

  // ----- any storage provider --------------------------------------------------------------------------------

  /** What a StorageProvider stores, whatever the tables behind it. */
  function Contents(db: Database): map<SagaId, SagaInstance> {
    map id | id in db.instances :: Load(db, id).value
  }

  lemma LoadElsewhere(db: Database, instance: SagaInstance, next: int, id: SagaId)
    requires id != instance.sagaId
    ensures Load(Written(db, instance, next), id) == Load(db, id)
  {
    hide Written, RowsOf;
    WrittenElsewhere(db, instance, next, id);
  }

  /** A save replaces the stored instance and no other; the sequence numbers do not matter. */
  lemma ContentsWritten(db: Database, instance: SagaInstance, next: int)
    ensures Contents(Written(db, instance, next)) == Contents(db)[instance.sagaId := instance]
  {
    hide Written, Load;
    var db' := Written(db, instance, next);
    SaveThenFind(db, instance, next);
    WrittenIds(db, instance, next);
    forall id | id != instance.sagaId ensures Load(db', id) == Load(db, id) {
      LoadElsewhere(db, instance, next, id);
    }
  }

  lemma WrittenIds(db: Database, instance: SagaInstance, next: int)
    ensures Written(db, instance, next).instances.Keys == db.instances.Keys + {instance.sagaId}
    ensures forall id <- Written(db, instance, next).instances :: Load(Written(db, instance, next), id).Some?
    ensures forall id <- db.instances :: Load(db, id).Some?
  {
    hide Derived;
  }

  lemma ContentsDeleted(db: Database, id: SagaId)
    requires ForeignKeys(db)
    ensures Contents(Deleted(db, id)) == Contents(db) - {id}
  {
    DeletedRows(db, id);
    forall other | other != id ensures other in db.instances ==> Load(Deleted(db, id), other) == Load(db, other) {
      assert SameRows(db, Deleted(db, id), other);
    }
  }

  /** A first save, or a forward one, followed by a lookup by id returns what was saved, associations included. */
  lemma SaveThenFind(db: Database, instance: SagaInstance, next: int)
    ensures Load(Written(db, instance, next), instance.sagaId) == Some(instance)
  {
    hide Derived, Written;
    WrittenRows(db, instance, next);
    FromRowColumns(instance);
  }
}
