/**
 * The four tables of schema.sql, what one row-level operation does to them, and what one undisturbed save,
 * delete or lookup means. Rows are keyed by their primary keys; the columns of a saga_instance row are a
 * SagaInstance without its associations, which are rows of their own.
 */
module Tables {
  import opened JsonCodec
  import opened Spi
  import opened LifecycleHistory
  import opened SequenceNumbers

  datatype Database = Database(
    instances: map<SagaId, SagaInstance>,
    associations: map<(SagaId, string), string>,
    contexts: map<SagaId, string>,
    history: map<(SagaId, int), LifecycleEntry>)

  const EMPTY := Database(map[], map[], map[], map[])

  function Columns(instance: SagaInstance): SagaInstance {
    instance.(associations := map[])
  }

  function FromRow(row: SagaInstance, associations: Associations): SagaInstance {
    row.(associations := associations)
  }

  lemma FromRowColumns(instance: SagaInstance)
    ensures FromRow(Columns(instance), instance.associations) == instance
  {
  }

  // ----- rows of one saga ------------------------------------------------------------------------------------

  function RowsOf<K(==, !new), V>(table: map<(SagaId, K), V>, id: SagaId): (rows: map<K, V>)
    ensures forall k :: k in rows <==> (id, k) in table
    ensures forall k :: k in rows ==> rows[k] == table[(id, k)]
  {
    map key | key in table && key.0 == id :: key.1 := table[key]
  }

  function Keyed<K(==, !new), V>(id: SagaId, rows: map<K, V>): (table: map<(SagaId, K), V>)
    ensures forall key :: key in table <==> key.0 == id && key.1 in rows
    ensures forall key :: key in table ==> table[key] == rows[key.1]
  {
    map k | k in rows :: (id, k) := rows[k]
  }

  function KeysOf<K(==, !new), V>(table: map<(SagaId, K), V>, id: SagaId): set<(SagaId, K)> {
    set key | key in table && key.0 == id
  }

  function EntryRows(entries: seq<LifecycleEntry>): map<(SagaId, int), LifecycleEntry> {
    if entries == [] then map[]
    else
      var e := entries[|entries| - 1];
      EntryRows(entries[..|entries| - 1])[(e.sagaId, e.sequenceNumber) := e]
  }

  ghost predicate NumberedFrom(entries: seq<LifecycleEntry>, id: SagaId, next: int) {
    forall i :: 0 <= i < |entries| ==> entries[i].sagaId == id && entries[i].sequenceNumber == next + i
  }

  lemma {:induction false} EntryRowsAt(entries: seq<LifecycleEntry>, id: SagaId, next: int)
    requires NumberedFrom(entries, id, next)
    ensures forall key :: key in EntryRows(entries) <==> key.0 == id && next <= key.1 < next + |entries|
    ensures forall n :: next <= n < next + |entries| ==> EntryRows(entries)[(id, n)] == entries[n - next]
  {
    if entries != [] {
      EntryRowsAt(entries[..|entries| - 1], id, next);
    }
  }

  // ----- the next sequence number ----------------------------------------------------------------------------

  ghost function NextSequence(db: Database, id: SagaId): int {
    NextNumber(KeysOf(db.history, id))
  }

  // ----- one undisturbed operation ---------------------------------------------------------------------------

  function Load(db: Database, id: SagaId): Option<SagaInstance> {
    if id in db.instances then Some(FromRow(db.instances[id], RowsOf(db.associations, id))) else None
  }

  /** The tables after the writes of a save whose history entries are numbered from next. */
  ghost function Written(db: Database, instance: SagaInstance, next: int): Database {
    var id := instance.sagaId;
    Database(
      db.instances[id := Columns(instance)],
      (db.associations - KeysOf(db.associations, id)) + Keyed(id, instance.associations),
      db.contexts,
      db.history + EntryRows(Derived(Load(db, id), instance, next)))
  }

  /** Whether an undisturbed save is accepted. */
  predicate Accepted(db: Database, instance: SagaInstance) {
    && Supported(instance.state)
    && (instance.sagaId in db.instances ==> Forward(Load(db, instance.sagaId).value, instance))
  }

  /** ON DELETE CASCADE from saga_instance. */
  function Deleted(db: Database, id: SagaId): Database {
    Database(
      db.instances - {id},
      db.associations - KeysOf(db.associations, id),
      db.contexts - {id},
      db.history - KeysOf(db.history, id))
  }

  /** The foreign keys: only an existing instance has association, context or history rows. */
  predicate ForeignKeys(db: Database) {
    && (forall key <- db.associations :: key.0 in db.instances)
    && (forall id <- db.contexts :: id in db.instances)
    && (forall key <- db.history :: key.0 in db.instances)
  }

  // ----- what the tables hold of one saga --------------------------------------------------------------------

  /** The committed snapshots of one saga since it was (re-)created, oldest first, and its first sequence number. */
  datatype Lineage = Lineage(base: int, snapshots: seq<SagaInstance>)

  function Current(l: Lineage): SagaInstance
    requires l.snapshots != []
  {
    l.snapshots[|l.snapshots| - 1]
  }

  /** The history rows of id are exactly h, numbered from base. */
  ghost predicate HistoryRows(db: Database, id: SagaId, base: int, h: seq<LifecycleEntry>) {
    && (forall n :: (id, n) in db.history <==> base <= n < base + |h|)
    && (forall n :: base <= n < base + |h| ==> db.history[(id, n)] == h[n - base])
  }

  /** The tables hold of id exactly the last snapshot of l and the history derived along l. */
  ghost predicate Holds(db: Database, id: SagaId, l: Lineage) {
    && l.base >= 0
    && l.snapshots != []
    && ForwardChain(l.snapshots)
    && (forall i :: 0 <= i < |l.snapshots| ==> l.snapshots[i].sagaId == id)
    && id in db.instances && db.instances[id] == Columns(Current(l))
    && RowsOf(db.associations, id) == Current(l).associations
    && HistoryRows(db, id, l.base, HistoryOf(l.snapshots, l.base))
  }

  lemma HoldsLoad(db: Database, id: SagaId, l: Lineage)
    requires Holds(db, id, l)
    ensures Load(db, id) == Some(Current(l))
  {
  }

  lemma NextSequenceOfHistory(db: Database, id: SagaId, base: int, h: seq<LifecycleEntry>)
    requires HistoryRows(db, id, base, h)
    ensures NextSequence(db, id) == if h == [] then 0 else base + |h|
  {
    var keys := KeysOf(db.history, id);
    if h != [] {
      assert (id, base + |h| - 1) in keys;
      NextNumberUnique(keys, base + |h|);
    } else {
      forall key: (SagaId, int) ensures key !in keys {
        assert |h| == 0;
        var n := key.1;
        assert (id, n) !in db.history;
      }
    }
  }

  /** The rows of an instance: all that a save, a check or a lookup of that saga reads. */
  ghost predicate SameRows(db: Database, db': Database, id: SagaId) {
    && (id in db.instances <==> id in db'.instances)
    && (id in db.instances ==> db.instances[id] == db'.instances[id])
    && RowsOf(db.associations, id) == RowsOf(db'.associations, id)
    && RowsOf(db.history, id) == RowsOf(db'.history, id)
  }

  lemma SameRowsHold(db: Database, db': Database, id: SagaId, l: Lineage)
    requires SameRows(db, db', id) && Holds(db, id, l)
    ensures Holds(db', id, l)
  {
    hide HistoryOf, ForwardChain;
    HistoryRowsFrom(db, db', id, l.base, HistoryOf(l.snapshots, l.base));
  }

  lemma HistoryRowsFrom(db: Database, db': Database, id: SagaId, base: int, h: seq<LifecycleEntry>)
    requires RowsOf(db.history, id) == RowsOf(db'.history, id) && HistoryRows(db, id, base, h)
    ensures HistoryRows(db', id, base, h)
  {
    var rows, rows' := RowsOf(db.history, id), RowsOf(db'.history, id);
    assert forall n :: n in rows <==> (id, n) in db.history;
    assert forall n :: n in rows' <==> (id, n) in db'.history;
    assert forall n :: n in rows ==> rows[n] == db.history[(id, n)];
    assert forall n :: n in rows' ==> rows'[n] == db'.history[(id, n)];
  }

  lemma SameRowsNextSequence(db: Database, db': Database, id: SagaId)
    requires SameRows(db, db', id)
    ensures NextSequence(db, id) == NextSequence(db', id)
  {
    var rows, rows' := RowsOf(db.history, id), RowsOf(db'.history, id);
    forall key: (SagaId, int) ensures key in KeysOf(db.history, id) <==> key in KeysOf(db'.history, id) {
      assert key.0 == id ==> (key.1 in rows <==> (id, key.1) in db.history);
      assert key.0 == id ==> (key.1 in rows' <==> (id, key.1) in db'.history);
    }
    assert KeysOf(db.history, id) == KeysOf(db'.history, id);
  }

  lemma NoRowsNextSequence(db: Database, id: SagaId)
    requires ForeignKeys(db) && id !in db.instances
    ensures NextSequence(db, id) == 0 && HistoryRows(db, id, 0, []) && RowsOf(db.associations, id) == map[]
  {
    assert KeysOf(db.history, id) == {};
  }

  // ----- what one operation leaves ---------------------------------------------------------------------------

  lemma DerivedNumbered(previous: Option<SagaInstance>, incoming: SagaInstance, next: int)
    ensures NumberedFrom(Derived(previous, incoming, next), incoming.sagaId, next)
  {
    DerivedWellFormed(previous, incoming, next);
  }

  /** The history rows after appending d, numbered from next. */
  ghost predicate Appended(history: map<(SagaId, int), LifecycleEntry>, history': map<(SagaId, int), LifecycleEntry>,
                           id: SagaId, d: seq<LifecycleEntry>, next: int) {
    && (forall n :: (id, n) in history' <==> (id, n) in history || next <= n < next + |d|)
    && (forall n :: next <= n < next + |d| ==> history'[(id, n)] == d[n - next])
    && (forall n :: (id, n) in history && !(next <= n < next + |d|) ==> history'[(id, n)] == history[(id, n)])
    && (forall key: (SagaId, int) :: key.0 != id ==> (key in history <==> key in history'))
    && (forall key: (SagaId, int) :: key.0 != id && key in history ==> history'[key] == history[key])
  }

  lemma AppendRows(history: map<(SagaId, int), LifecycleEntry>, id: SagaId, d: seq<LifecycleEntry>, next: int)
    requires NumberedFrom(d, id, next)
    ensures Appended(history, history + EntryRows(d), id, d, next)
  {
    hide EntryRows, NumberedFrom;
    EntryRowsAt(d, id, next);
  }

  /** A row after the replacement: of id, one of rows; of any other, what it was. */
  lemma ReplacedAt(table: map<(SagaId, string), string>, id: SagaId, rows: Associations, key: (SagaId, string))
    ensures var t := (table - KeysOf(table, id)) + Keyed(id, rows);
      && (key in t <==> if key.0 == id then key.1 in rows else key in table)
      && (key in t ==> t[key] == if key.0 == id then rows[key.1] else table[key])
  {
  }

  lemma RowsAgree(table: map<(SagaId, string), string>, id: SagaId, rows: Associations)
    requires forall k: string :: (id, k) in table <==> k in rows
    requires forall k: string :: k in rows ==> table[(id, k)] == rows[k]
    ensures RowsOf(table, id) == rows
  {
  }

  lemma ReplaceRows(table: map<(SagaId, string), string>, id: SagaId, rows: Associations)
    ensures RowsOf((table - KeysOf(table, id)) + Keyed(id, rows), id) == rows
    ensures forall other :: other != id ==>
              RowsOf((table - KeysOf(table, id)) + Keyed(id, rows), other) == RowsOf(table, other)
  {
    hide KeysOf, Keyed, RowsOf;
    var t := (table - KeysOf(table, id)) + Keyed(id, rows);
    forall k: string ensures ((id, k) in t <==> k in rows) && ((id, k) in t ==> t[(id, k)] == rows[k]) {
      ReplacedAt(table, id, rows, (id, k));
    }
    RowsAgree(t, id, rows);
    forall other | other != id ensures RowsOf(t, other) == RowsOf(table, other) {
      RowsElsewhere(table, id, rows, other);
    }
  }

  lemma RowsElsewhere(table: map<(SagaId, string), string>, id: SagaId, rows: Associations, other: SagaId)
    requires other != id
    ensures RowsOf((table - KeysOf(table, id)) + Keyed(id, rows), other) == RowsOf(table, other)
  {
    hide KeysOf, Keyed;
    var t := (table - KeysOf(table, id)) + Keyed(id, rows);
    forall k: string
      ensures ((other, k) in t <==> (other, k) in table) && ((other, k) in t ==> t[(other, k)] == table[(other, k)])
    {
      ReplacedAt(table, id, rows, (other, k));
    }
    RowsAgree(t, other, RowsOf(table, other));
  }

  lemma WrittenRows(db: Database, instance: SagaInstance, next: int)
    ensures var id, db' := instance.sagaId, Written(db, instance, next);
            && id in db'.instances && db'.instances[id] == Columns(instance)
            && RowsOf(db'.associations, id) == instance.associations
            && Appended(db.history, db'.history, id, Derived(Load(db, id), instance, next), next)
            && db'.contexts == db.contexts
  {
    hide Derived, Appended, KeysOf, Keyed, RowsOf, EntryRows;
    var id, d := instance.sagaId, Derived(Load(db, instance.sagaId), instance, next);
    DerivedNumbered(Load(db, id), instance, next);
    AppendRows(db.history, id, d, next);
    ReplaceRows(db.associations, id, instance.associations);
  }

  lemma WrittenElsewhere(db: Database, instance: SagaInstance, next: int, other: SagaId)
    requires other != instance.sagaId
    ensures SameRows(db, Written(db, instance, next), other)
  {
    hide Derived, KeysOf, Keyed, RowsOf, EntryRows, Load, Appended;
    var id, d := instance.sagaId, Derived(Load(db, instance.sagaId), instance, next);
    WrittenRows(db, instance, next);
    ReplaceRows(db.associations, id, instance.associations);
    AppendedElsewhere(db.history, Written(db, instance, next).history, id, d, next, other);
  }

  lemma AppendedElsewhere(history: map<(SagaId, int), LifecycleEntry>, history': map<(SagaId, int), LifecycleEntry>,
                          id: SagaId, d: seq<LifecycleEntry>, next: int, other: SagaId)
    requires Appended(history, history', id, d, next) && other != id
    ensures RowsOf(history, other) == RowsOf(history', other)
  {
  }

  lemma WrittenForeignKeys(db: Database, instance: SagaInstance, next: int)
    requires ForeignKeys(db)
    ensures ForeignKeys(Written(db, instance, next))
  {
    hide Derived;
    WrittenRows(db, instance, next);
  }

  lemma DeletedRows(db: Database, id: SagaId)
    requires ForeignKeys(db)
    ensures ForeignKeys(Deleted(db, id)) && id !in Deleted(db, id).instances
    ensures forall other :: other != id ==> SameRows(db, Deleted(db, id), other)
    ensures forall other :: other != id ==>
              && (other in Deleted(db, id).contexts <==> other in db.contexts)
              && (other in db.contexts ==> Deleted(db, id).contexts[other] == db.contexts[other])
  {
    forall other | other != id ensures SameRows(db, Deleted(db, id), other) {
      var db' := Deleted(db, id);
      assert RowsOf(db.associations, other) == RowsOf(db'.associations, other);
      assert RowsOf(db.history, other) == RowsOf(db'.history, other);
    }
  }

  lemma FirstSaveHolds(db: Database, instance: SagaInstance, next: int)
    requires ForeignKeys(db) && instance.sagaId !in db.instances && next >= 0
    ensures Holds(Written(db, instance, next), instance.sagaId, Lineage(next, [instance]))
  {
    hide Derived, Written, RowsOf, HistoryOf, HistoryRows, Appended;
    var id := instance.sagaId;
    WrittenRows(db, instance, next);
    NoHistory(db, id, next);
    HistoryOfOne(instance, next);
    var d := Derived(None, instance, next);
    assert [] + d == d;
    HistoryGrows(db, Written(db, instance, next), id, next, [], d);
  }

  lemma NoHistory(db: Database, id: SagaId, base: int)
    requires ForeignKeys(db) && id !in db.instances
    ensures HistoryRows(db, id, base, [])
  {
  }

  lemma HistoryOfOne(instance: SagaInstance, base: int)
    ensures HistoryOf([instance], base) == Derived(None, instance, base)
  {
    hide Derived;
    assert [instance][..0] == [];
    assert HistoryOf([], base) == [];
  }

  lemma HistoryOfNext(snapshots: seq<SagaInstance>, base: int, instance: SagaInstance)
    requires snapshots != []
    ensures var h := HistoryOf(snapshots, base);
            HistoryOf(snapshots + [instance], base) ==
                h + Derived(Some(snapshots[|snapshots| - 1]), instance, base + |h|)
  {
    hide Derived;
    var all := snapshots + [instance];
    var n := |all| - 1;
    assert all[..n] == snapshots && all[n] == instance && all[n - 1] == snapshots[|snapshots| - 1];
    var h := HistoryOf(all[..n], base);
    assert HistoryOf(all, base) == h + Derived(Some(all[n - 1]), all[n], base + |h|);
  }

  lemma NextSaveHolds(db: Database, instance: SagaInstance, l: Lineage)
    requires Holds(db, instance.sagaId, l) && Accepted(db, instance)
    ensures Holds(Written(db, instance, NextSequence(db, instance.sagaId)), instance.sagaId,
                  Lineage(l.base, l.snapshots + [instance]))
  {
    hide Derived, Forward, Written, NextSequence, HistoryOf, RowsOf, Appended, HistoryRows, Columns, Load, Supported;
    var id, h := instance.sagaId, HistoryOf(l.snapshots, l.base);
    HistoryNotEmpty(l.snapshots, l.base);
    HoldsLoad(db, id, l);
    NextSequenceOfHistory(db, id, l.base, h);
    var next := NextSequence(db, id);
    WrittenRows(db, instance, next);
    HistoryOfNext(l.snapshots, l.base, instance);
    HistoryGrows(db, Written(db, instance, next), id, l.base, h, Derived(Some(Current(l)), instance, next));
  }

  lemma HistoryGrows(db: Database, db': Database, id: SagaId, base: int, h: seq<LifecycleEntry>, d: seq<LifecycleEntry>)
    requires HistoryRows(db, id, base, h) && Appended(db.history, db'.history, id, d, base + |h|)
    ensures HistoryRows(db', id, base, h + d)
  {
  }

  lemma HistoryNotEmpty(snapshots: seq<SagaInstance>, base: int)
    requires snapshots != [] && ForwardChain(snapshots)
    ensures HistoryOf(snapshots, base) != []
  {
    hide HistoryOf, Faithful;
    HistoryFaithful(snapshots, base);
    FaithfulNotEmpty(HistoryOf(snapshots, base), snapshots[0], snapshots[|snapshots| - 1]);
  }

  lemma FaithfulNotEmpty(h: seq<LifecycleEntry>, first: SagaInstance, current: SagaInstance)
    requires Faithful(h, first, current)
    ensures h != []
  {
  }
}
