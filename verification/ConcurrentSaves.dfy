/**
 * PostgresStorageProvider under concurrency: any number of save transactions, deletes and context writes,
 * interleaved statement by statement under READ COMMITTED. A statement reads what is committed when it starts
 * plus its own transaction's writes; row locks are held to commit or rollback. An action that would have to
 * wait for a lock, or is not the transaction's next statement, leaves the server unchanged.
 */
module ConcurrentSaves {
  import opened JsonCodec
  import opened Spi
  import opened LifecycleHistory
  import opened SequenceNumbers
  import opened Tables

  type TxId = string

  datatype Rollback = NotForward | LostFirstSave | UnsupportedState | DuplicateKey | Failure

  datatype Phase =
    | Begun
    | Selecting(seen: TxId, associations: Associations) // SELECT ... FOR UPDATE has its snapshot, not yet its lock
    | Selected
    | Sequenced
    | Upserted
    | Cleared                                           // association rows deleted; inserting rows
    | Committed
    | RolledBack(reason: Rollback)

  /** One call of save: its argument, its local variables, and its uncommitted writes. */
  datatype Transaction = Transaction(
    instance: SagaInstance,
    phase: Phase,
    previous: Option<SagaInstance>,
    next: int,
    sawRow: bool,                        // whether the instance row was committed when next was read
    entries: seq<LifecycleEntry>,
    inserted: bool,
    cleared: set<(SagaId, string)>,      // association rows this transaction deleted
    newAssociations: Associations,       // association rows it inserted
    written: nat)                        // history rows it inserted: entries[..written]

  datatype Operation =
    | Saved(tx: TxId, instance: SagaInstance, next: int)
    | Removed(id: SagaId)
    | ContextSaved(id: SagaId, value: string)

  /** inserter tells a row from an earlier one of the same key; log and lineages only record the run. */
  datatype Server = Server(
    committed: Database,
    inserter: map<SagaId, TxId>,
    locks: map<SagaId, TxId>,
    transactions: map<TxId, Transaction>,
    log: seq<Operation>,
    lineages: map<SagaId, Lineage>)

  const INITIAL := Server(EMPTY, map[], map[], map[], [], map[])

  datatype Action =
    | Begin(tx: TxId, instance: SagaInstance)
    | Select(tx: TxId)
    | Lock(tx: TxId)
    | ReadSequence(tx: TxId)
    | Upsert(tx: TxId)
    | ClearAssociations(tx: TxId)
    | InsertAssociation(tx: TxId, property: string)
    | InsertHistory(tx: TxId)
    | Commit(tx: TxId)
    | Abort(tx: TxId)
    | Delete(id: SagaId)
    | SaveContext(id: SagaId, value: string)

  // ----- steps -----------------------------------------------------------------------------------------------

  predicate Blocked(s: Server, t: TxId, id: SagaId) {
    id in s.locks && s.locks[id] != t
  }

  function With(s: Server, t: TxId, x: Transaction): Server {
    s.(transactions := s.transactions[t := x])
  }

  function Unlocked(s: Server, t: TxId, id: SagaId): map<SagaId, TxId> {
    if id in s.locks && s.locks[id] == t then s.locks - {id} else s.locks
  }

  function RollBack(s: Server, t: TxId, reason: Rollback): Server
    requires t in s.transactions
  {
    var x := s.transactions[t];
    With(s, t, x.(phase := RolledBack(reason))).(locks := Unlocked(s, t, x.instance.sagaId))
  }

  function DoBegin(s: Server, t: TxId, instance: SagaInstance): Server {
    if t in s.transactions then s
    else With(s, t, Transaction(instance, Begun, None, 0, false, [], false, {}, map[], 0))
  }

  /** LOCK_PREVIOUS takes its snapshot: no row means no lock and no previous. */
  function DoSelect(s: Server, t: TxId): Server
    requires t in s.transactions
  {
    var x := s.transactions[t];
    var id := x.instance.sagaId;
    if !x.phase.Begun? then s
    else if id in s.committed.instances && id in s.inserter then
      With(s, t, x.(phase := Selecting(s.inserter[id], RowsOf(s.committed.associations, id))))
    else With(s, t, x.(phase := Selected))
  }

  /**
   * LOCK_PREVIOUS gets its lock and reads the row as committed by now, with the associations of its snapshot;
   * a row deleted meanwhile is skipped, even if another was inserted in its place.
   */
  function DoLock(s: Server, t: TxId): Server
    requires t in s.transactions
  {
    var x := s.transactions[t];
    var id := x.instance.sagaId;
    if !x.phase.Selecting? then s
    else if id !in s.committed.instances || id !in s.inserter || s.inserter[id] != x.phase.seen then
      With(s, t, x.(phase := Selected))
    else if Blocked(s, t, id) then s
    else
      With(s, t, x.(phase := Selected, previous := Some(FromRow(s.committed.instances[id], x.phase.associations))))
        .(locks := s.locks[id := t])
  }

  /** The forward check, NEXT_SEQUENCE_NUMBER, and the derivation. */
  ghost function DoReadSequence(s: Server, t: TxId): Server
    requires t in s.transactions
  {
    var x := s.transactions[t];
    if !x.phase.Selected? then s
    else if x.previous.Some? && !Forward(x.previous.value, x.instance) then RollBack(s, t, NotForward)
    else
      var next := NextSequence(s.committed, x.instance.sagaId);
      With(s, t, x.(phase := Sequenced, next := next, sawRow := x.instance.sagaId in s.committed.instances,
                    entries := Derived(x.previous, x.instance, next)))
  }

  /** UPSERT_INSTANCE; an uncommitted row of the same key makes it wait like any lock. */
  function DoUpsert(s: Server, t: TxId): Server
    requires t in s.transactions
  {
    var x := s.transactions[t];
    var id := x.instance.sagaId;
    if !x.phase.Sequenced? then s
    else if !Supported(x.instance.state) then RollBack(s, t, UnsupportedState)
    else if Blocked(s, t, id) then s
    else
      With(s, t, x.(phase := Upserted, inserted := id !in s.committed.instances)).(locks := s.locks[id := t])
  }

  /** The first-save check, then DELETE_ASSOCIATIONS. */
  function DoClearAssociations(s: Server, t: TxId): Server
    requires t in s.transactions
  {
    var x := s.transactions[t];
    if !x.phase.Upserted? then s
    else if x.previous.None? && !x.inserted then RollBack(s, t, LostFirstSave)
    else With(s, t, x.(phase := Cleared, cleared := KeysOf(s.committed.associations, x.instance.sagaId)))
  }

  function DoInsertAssociation(s: Server, t: TxId, property: string): Server
    requires t in s.transactions
  {
    var x := s.transactions[t];
    var key := (x.instance.sagaId, property);
    if !x.phase.Cleared? || property !in x.instance.associations || property in x.newAssociations then s
    else if key in s.committed.associations && key !in x.cleared then RollBack(s, t, DuplicateKey)
    else With(s, t, x.(newAssociations := x.newAssociations[property := x.instance.associations[property]]))
  }

  /** The next row of the history batch, once the association batch is done. */
  function DoInsertHistory(s: Server, t: TxId): Server
    requires t in s.transactions
  {
    var x := s.transactions[t];
    if !x.phase.Cleared? || x.newAssociations.Keys != x.instance.associations.Keys || x.written >= |x.entries| then s
    else
      var e := x.entries[x.written];
      if (e.sagaId, e.sequenceNumber) in s.committed.history
         || exists i :: 0 <= i < x.written && x.entries[i].sequenceNumber == e.sequenceNumber
      then RollBack(s, t, DuplicateKey)
      else With(s, t, x.(written := x.written + 1))
  }

  predicate MayCommit(x: Transaction) {
    x.phase.Cleared? && x.newAssociations.Keys == x.instance.associations.Keys && x.written == |x.entries|
  }

  /** The transaction's writes, all at once. */
  function Applied(db: Database, x: Transaction): Database {
    var id := x.instance.sagaId;
    Database(
      db.instances[id := Columns(x.instance)],
      (db.associations - x.cleared) + Keyed(id, x.newAssociations),
      db.contexts,
      db.history + EntryRows(x.entries))
  }

  function Extended(lineages: map<SagaId, Lineage>, x: Transaction): map<SagaId, Lineage> {
    var id := x.instance.sagaId;
    lineages[id := if x.inserted || id !in lineages then Lineage(x.next, [x.instance])
                   else Lineage(lineages[id].base, lineages[id].snapshots + [x.instance])]
  }

  function DoCommit(s: Server, t: TxId): Server
    requires t in s.transactions
  {
    var x := s.transactions[t];
    var id := x.instance.sagaId;
    if !MayCommit(x) then s
    else
      Server(
        Applied(s.committed, x),
        if x.inserted then s.inserter[id := t] else s.inserter,
        Unlocked(s, t, id),
        s.transactions[t := x.(phase := Committed)],
        s.log + [Saved(t, x.instance, x.next)],
        Extended(s.lineages, x))
  }

  /** An SQL or connection failure at any point before the commit. */
  function DoAbort(s: Server, t: TxId): Server
    requires t in s.transactions
  {
    if s.transactions[t].phase.Committed? || s.transactions[t].phase.RolledBack? then s
    else RollBack(s, t, Failure)
  }

  /** DELETE_INSTANCE, on its own connection with autocommit; it waits for the row's lock. */
  function DoDelete(s: Server, id: SagaId): Server {
    if id !in s.committed.instances || id in s.locks then s
    else
      s.(committed := Deleted(s.committed, id), inserter := s.inserter - {id}, lineages := s.lineages - {id},
         log := s.log + [Removed(id)])
  }

  /** The context store's upsert: its foreign key needs an instance row. */
  function DoSaveContext(s: Server, id: SagaId, value: string): Server {
    if id !in s.committed.instances then s
    else
      s.(committed := s.committed.(contexts := s.committed.contexts[id := value]),
         log := s.log + [ContextSaved(id, value)])
  }

  ghost function Step(s: Server, a: Action): Server {
    match a
    case Begin(t, instance) => DoBegin(s, t, instance)
    case Delete(id) => DoDelete(s, id)
    case SaveContext(id, value) => DoSaveContext(s, id, value)
    case _ => if a.tx in s.transactions then TransactionStep(s, a) else s
  }

  ghost function TransactionStep(s: Server, a: Action): Server
    requires !a.Delete? && !a.SaveContext? && a.tx in s.transactions
  {
    match a
    case Begin(_, _) => s
    case Select(t) => DoSelect(s, t)
    case Lock(t) => DoLock(s, t)
    case ReadSequence(t) => DoReadSequence(s, t)
    case Upsert(t) => DoUpsert(s, t)
    case ClearAssociations(t) => DoClearAssociations(s, t)
    case InsertAssociation(t, property) => DoInsertAssociation(s, t, property)
    case InsertHistory(t) => DoInsertHistory(s, t)
    case Commit(t) => DoCommit(s, t)
    case Abort(t) => DoAbort(s, t)
  }

  /** The server after any sequence of actions, that is, after any interleaving. */
  ghost function Run(actions: seq<Action>): Server {
    if actions == [] then INITIAL
    else Step(Run(actions[..|actions| - 1]), actions[|actions| - 1])
  }

  // ----- what every step keeps: transactions and locks -------------------------------------------------------

  /** The phases in which a transaction holds the lock of its row. */
  predicate Owns(x: Transaction) {
    || ((x.phase.Selected? || x.phase.Sequenced?) && x.previous.Some?)
    || x.phase.Upserted?
    || x.phase.Cleared?
  }

  predicate Active(x: Transaction) {
    !x.phase.Committed? && !x.phase.RolledBack?
  }

  predicate PastSequence(x: Transaction) {
    x.phase.Sequenced? || x.phase.Upserted? || x.phase.Cleared?
  }

  function LockOf(locks: map<SagaId, TxId>, id: SagaId): Option<TxId> {
    if id in locks then Some(locks[id]) else None
  }

  /** The row read and locked is still what is committed. */
  ghost predicate PreviousIsCurrent(db: Database, x: Transaction) {
    && (x.phase.Begun? || x.phase.Selecting? ==> x.previous.None?)
    && (Active(x) && x.previous.Some? ==>
          x.instance.sagaId in db.instances && db.instances[x.instance.sagaId] == Columns(x.previous.value))
  }

  ghost predicate SequenceIsCurrent(db: Database, deleted: bool, x: Transaction) {
    PastSequence(x) ==>
      && x.next >= 0
      && x.entries == Derived(x.previous, x.instance, x.next)
      && (x.previous.Some? ==>
            Forward(x.previous.value, x.instance) && x.next == NextSequence(db, x.instance.sagaId))
      && (x.previous.None? ==> (x.sawRow <==> x.next > 0))
      && (x.previous.None? && x.sawRow && !deleted ==> x.instance.sagaId in db.instances)
  }

  ghost predicate WritesAreCurrent(db: Database, x: Transaction) {
    && (Active(x) && !x.phase.Cleared? ==> x.newAssociations == map[] && x.written == 0)
    && (x.phase.Upserted? || x.phase.Cleared? ==>
          Supported(x.instance.state) && (x.inserted <==> x.instance.sagaId !in db.instances))
    && (x.phase.Cleared? ==>
          && (x.previous.Some? || x.inserted)
          && x.cleared == KeysOf(db.associations, x.instance.sagaId)
          && x.newAssociations.Keys <= x.instance.associations.Keys
          && (forall p <- x.newAssociations :: x.newAssociations[p] == x.instance.associations[p])
          && x.written <= |x.entries|)
  }

  ghost predicate TransactionOk(db: Database, lock: Option<TxId>, deleted: bool, t: TxId, x: Transaction) {
    && (Owns(x) <==> lock == Some(t))
    && PreviousIsCurrent(db, x)
    && SequenceIsCurrent(db, deleted, x)
    && WritesAreCurrent(db, x)
    && x.phase != RolledBack(DuplicateKey)
  }

  ghost predicate WasDeleted(log: seq<Operation>, id: SagaId) {
    Removed(id) in log
  }

  ghost predicate TransactionOf(s: Server, t: TxId)
    requires t in s.transactions
  {
    var x := s.transactions[t];
    TransactionOk(s.committed, LockOf(s.locks, x.instance.sagaId), WasDeleted(s.log, x.instance.sagaId), t, x)
  }

  ghost predicate TransactionsOk(s: Server) {
    forall t <- s.transactions :: TransactionOf(s, t)
  }

  ghost predicate LocksOk(s: Server) {
    forall id <- s.locks :: s.locks[id] in s.transactions && s.transactions[s.locks[id]].instance.sagaId == id
                            && Owns(s.transactions[s.locks[id]])
  }

  ghost predicate LineageOf(s: Server, id: SagaId) {
    && id in s.committed.instances
    && id in s.lineages
    && Holds(s.committed, id, s.lineages[id])
    && (s.lineages[id].base == 0 || WasDeleted(s.log, id))
  }

  ghost predicate TablesOk(s: Server) {
    && ForeignKeys(s.committed)
    && s.lineages.Keys == s.committed.instances.Keys
    && s.inserter.Keys == s.committed.instances.Keys
    && forall id <- s.lineages :: LineageOf(s, id)
  }

  // ----- a transaction sees only its own saga's rows ---------------------------------------------------------

  lemma SameRowsTransactionOk(db: Database, db': Database, lock: Option<TxId>, deleted: bool, t: TxId, x: Transaction)
    requires TransactionOk(db, lock, deleted, t, x) && SameRows(db, db', x.instance.sagaId)
    ensures TransactionOk(db', lock, deleted, t, x)
  {
    hide Derived, Forward, NextSequence;
    var id := x.instance.sagaId;
    SameRowsNextSequence(db, db', id);
    SameRowsKeys(db.associations, db'.associations, id);
  }

  lemma SameRowsKeys(a: map<(SagaId, string), string>, b: map<(SagaId, string), string>, id: SagaId)
    requires RowsOf(a, id) == RowsOf(b, id)
    ensures KeysOf(a, id) == KeysOf(b, id)
  {
    forall key: (SagaId, string) ensures key in KeysOf(a, id) <==> key in KeysOf(b, id) {
      assert key.0 == id ==> (key.1 in RowsOf(a, id) <==> (id, key.1) in a);
      assert key.0 == id ==> (key.1 in RowsOf(b, id) <==> (id, key.1) in b);
    }
  }

  /** A transaction without the lock survives whatever is committed to, or deleted from, its rows. */
  lemma NotOwnerTransactionOk(db: Database, db': Database, lock: Option<TxId>, lock': Option<TxId>, deleted: bool,
                              deleted': bool, t: TxId, x: Transaction)
    requires TransactionOk(db, lock, deleted, t, x) && lock != Some(t) && lock' != Some(t)
    requires (deleted ==> deleted') && (x.instance.sagaId in db'.instances || deleted')
    ensures TransactionOk(db', lock', deleted', t, x)
  {
    hide Derived, Forward, NextSequence;
  }

  // ----- steps of one transaction before its commit ----------------------------------------------------------

  /** s' differs from s in transaction t, of saga id, and at most in t's hold of the lock of id. */
  ghost predicate OnlyTransaction(s: Server, s': Server, t: TxId, id: SagaId) {
    && s'.committed == s.committed && s'.inserter == s.inserter && s'.log == s.log && s'.lineages == s.lineages
    && t in s'.transactions
    && s'.transactions == s.transactions[t := s'.transactions[t]]
    && s'.transactions[t].instance.sagaId == id
    && (t in s.transactions ==> s.transactions[t].instance.sagaId == id)
    && (forall other :: other != id ==> LockOf(s'.locks, other) == LockOf(s.locks, other))
    && (LockOf(s'.locks, id) != LockOf(s.locks, id) ==> !Blocked(s, t, id) && !Blocked(s', t, id))
  }

  lemma OnlyTransactionKeeps(s: Server, s': Server, t: TxId, id: SagaId)
    requires TransactionsOk(s) && LocksOk(s) && OnlyTransaction(s, s', t, id) && TransactionOf(s', t)
    ensures TransactionsOk(s') && LocksOk(s')
  {
    hide TransactionOk;
    forall u | u in s'.transactions ensures TransactionOf(s', u) {
      if u != t {
        assert TransactionOf(s, u);
        var x := s.transactions[u];
        if x.instance.sagaId == id && LockOf(s.locks, id) != LockOf(s'.locks, id) {
          SameTransactionOk(s.committed, LockOf(s.locks, id), LockOf(s'.locks, id), WasDeleted(s.log, id), u, x);
        }
      }
    }
    forall other | other in s'.locks
      ensures s'.locks[other] in s'.transactions && s'.transactions[s'.locks[other]].instance.sagaId == other
              && Owns(s'.transactions[s'.locks[other]])
    {
      assert LockOf(s'.locks, other) == Some(s'.locks[other]);
      if other != id || LockOf(s'.locks, id) == LockOf(s.locks, id) {
        assert other in s.locks && s.locks[other] == s'.locks[other];
      }
      OwnerOwns(s'.committed, LockOf(s'.locks, id), WasDeleted(s'.log, id), t, s'.transactions[t]);
    }
  }

  lemma OwnerOwns(db: Database, lock: Option<TxId>, deleted: bool, t: TxId, x: Transaction)
    requires TransactionOk(db, lock, deleted, t, x)
    ensures Owns(x) <==> lock == Some(t)
  {
  }

  lemma SameTransactionOk(db: Database, lock: Option<TxId>, lock': Option<TxId>, deleted: bool, t: TxId, x: Transaction)
    requires TransactionOk(db, lock, deleted, t, x) && lock != Some(t) && lock' != Some(t)
    ensures TransactionOk(db, lock', deleted, t, x)
  {
  }

  lemma RollBackKeeps(s: Server, t: TxId, reason: Rollback)
    requires t in s.transactions && TransactionOf(s, t) && reason != DuplicateKey
    ensures OnlyTransaction(s, RollBack(s, t, reason), t, s.transactions[t].instance.sagaId)
    ensures TransactionOf(RollBack(s, t, reason), t)
  {
    hide Derived, Forward, NextSequence;
  }

  lemma BeginKeeps(s: Server, t: TxId, instance: SagaInstance)
    requires LocksOk(s) && t !in s.transactions
    ensures OnlyTransaction(s, DoBegin(s, t, instance), t, instance.sagaId)
    ensures TransactionOf(DoBegin(s, t, instance), t)
  {
    hide Derived, Forward, NextSequence;
  }

  /** A step of t that changes its record alone. */
  lemma WithKeeps(s: Server, t: TxId, x': Transaction)
    requires t in s.transactions && x'.instance == s.transactions[t].instance
    requires var id := x'.instance.sagaId;
      TransactionOk(s.committed, LockOf(s.locks, id), WasDeleted(s.log, id), t, x')
    ensures OnlyTransaction(s, With(s, t, x'), t, x'.instance.sagaId) && TransactionOf(With(s, t, x'), t)
  {
    hide TransactionOk, WasDeleted;
  }

  lemma StayingKeeps(s: Server, t: TxId)
    requires t in s.transactions
    ensures OnlyTransaction(s, s, t, s.transactions[t].instance.sagaId)
  {
    assert s.transactions == s.transactions[t := s.transactions[t]];
  }

  /** A step of t that takes its row's lock as well. */
  lemma LockedKeeps(s: Server, t: TxId, x': Transaction)
    requires t in s.transactions && x'.instance == s.transactions[t].instance && !Blocked(s, t, x'.instance.sagaId)
    requires var id := x'.instance.sagaId; TransactionOk(s.committed, Some(t), WasDeleted(s.log, id), t, x')
    ensures var id := x'.instance.sagaId; var s' := With(s, t, x').(locks := s.locks[id := t]);
      OnlyTransaction(s, s', t, id) && TransactionOf(s', t)
  {
    hide TransactionOk, WasDeleted;
  }

  lemma SelectKeeps(s: Server, t: TxId)
    requires t in s.transactions && TransactionOf(s, t)
    ensures OnlyTransaction(s, DoSelect(s, t), t, s.transactions[t].instance.sagaId)
    ensures TransactionOf(DoSelect(s, t), t)
  {
    hide TransactionOk, WasDeleted, RowsOf;
    var x, x' := s.transactions[t], DoSelect(s, t).transactions[t];
    var id := x.instance.sagaId;
    if x.phase.Begun? {
      SelectedOk(s.committed, LockOf(s.locks, id), WasDeleted(s.log, id), t, x, x');
      WithKeeps(s, t, x');
    } else {
      StayingKeeps(s, t);
    }
  }

  /** Reading no row, or finding one and waiting for it, leaves the rest of the record alone. */
  lemma SelectedOk(db: Database, lock: Option<TxId>, deleted: bool, t: TxId, x: Transaction, x': Transaction)
    requires TransactionOk(db, lock, deleted, t, x) && x' == x.(phase := x'.phase)
    requires (x.phase.Begun? && x'.phase.Selecting?) || ((x.phase.Begun? || x.phase.Selecting?) && x'.phase.Selected?)
    ensures TransactionOk(db, lock, deleted, t, x')
  {
    hide Derived, Forward, NextSequence;
  }

  lemma LockKeeps(s: Server, t: TxId)
    requires t in s.transactions && TransactionOf(s, t)
    requires var id := s.transactions[t].instance.sagaId;
      id in s.committed.instances ==> s.committed.instances[id].associations == map[]
    ensures OnlyTransaction(s, DoLock(s, t), t, s.transactions[t].instance.sagaId)
    ensures TransactionOf(DoLock(s, t), t)
  {
    hide TransactionOk, WasDeleted;
    var x, x' := s.transactions[t], DoLock(s, t).transactions[t];
    var id := x.instance.sagaId;
    if !x.phase.Selecting? {
      StayingKeeps(s, t);
    } else if id !in s.committed.instances || id !in s.inserter || s.inserter[id] != x.phase.seen {
      SelectedOk(s.committed, LockOf(s.locks, id), WasDeleted(s.log, id), t, x, x');
      WithKeeps(s, t, x');
    } else if Blocked(s, t, id) {
      StayingKeeps(s, t);
    } else {
      ReadOk(s.committed, LockOf(s.locks, id), WasDeleted(s.log, id), t, x, x');
      LockedKeeps(s, t, x');
    }
  }

  lemma ReadOk(db: Database, lock: Option<TxId>, deleted: bool, t: TxId, x: Transaction, x': Transaction)
    requires TransactionOk(db, lock, deleted, t, x) && x.phase.Selecting? && x.instance.sagaId in db.instances
    requires db.instances[x.instance.sagaId].associations == map[]
    requires x' == x.(phase := Selected,
                      previous := Some(FromRow(db.instances[x.instance.sagaId], x.phase.associations)))
    ensures TransactionOk(db, Some(t), deleted, t, x')
  {
    hide Derived, Forward, NextSequence;
  }

  lemma ReadSequenceKeeps(s: Server, t: TxId)
    requires t in s.transactions && TransactionOf(s, t)
    requires var next := NextSequence(s.committed, s.transactions[t].instance.sagaId);
             next >= 0 && (s.transactions[t].instance.sagaId in s.committed.instances <==> next > 0)
    ensures OnlyTransaction(s, DoReadSequence(s, t), t, s.transactions[t].instance.sagaId)
    ensures TransactionOf(DoReadSequence(s, t), t)
  {
    hide TransactionOk, RollBack, Derived, Forward, NextSequence;
    var x := s.transactions[t];
    if x.phase.Selected? {
      if x.previous.Some? && !Forward(x.previous.value, x.instance) {
        RollBackKeeps(s, t, NotForward);
      } else {
        SequencedOk(s.committed, LockOf(s.locks, x.instance.sagaId), WasDeleted(s.log, x.instance.sagaId), t, x);
      }
    }
  }

  lemma SequencedOk(db: Database, lock: Option<TxId>, deleted: bool, t: TxId, x: Transaction)
    requires TransactionOk(db, lock, deleted, t, x) && x.phase.Selected?
    requires x.previous.Some? ==> Forward(x.previous.value, x.instance)
    requires var next := NextSequence(db, x.instance.sagaId);
      next >= 0 && (x.instance.sagaId in db.instances <==> next > 0)
    ensures var next := NextSequence(db, x.instance.sagaId);
            TransactionOk(db, lock, deleted, t,
              x.(phase := Sequenced, next := next, sawRow := x.instance.sagaId in db.instances,
                 entries := Derived(x.previous, x.instance, next)))
  {
    hide Derived, Forward, NextSequence;
  }

  lemma UpsertKeeps(s: Server, t: TxId)
    requires t in s.transactions && TransactionOf(s, t)
    ensures OnlyTransaction(s, DoUpsert(s, t), t, s.transactions[t].instance.sagaId)
    ensures TransactionOf(DoUpsert(s, t), t)
  {
    hide TransactionOk, RollBack, Supported;
    var x := s.transactions[t];
    var id := x.instance.sagaId;
    if x.phase.Sequenced? {
      if !Supported(x.instance.state) {
        RollBackKeeps(s, t, UnsupportedState);
      } else if !Blocked(s, t, id) {
        UpsertedOk(s.committed, LockOf(s.locks, id), WasDeleted(s.log, id), t, x, DoUpsert(s, t).transactions[t]);
      }
    }
  }

  lemma UpsertedOk(db: Database, lock: Option<TxId>, deleted: bool, t: TxId, x: Transaction, x': Transaction)
    requires TransactionOk(db, lock, deleted, t, x) && x.phase.Sequenced? && Supported(x.instance.state)
    requires x' == x.(phase := Upserted, inserted := x.instance.sagaId !in db.instances)
    ensures TransactionOk(db, Some(t), deleted, t, x')
  {
    hide Derived, Forward, NextSequence, Supported;
  }

  lemma ClearAssociationsKeeps(s: Server, t: TxId)
    requires t in s.transactions && TransactionOf(s, t)
    ensures OnlyTransaction(s, DoClearAssociations(s, t), t, s.transactions[t].instance.sagaId)
    ensures TransactionOf(DoClearAssociations(s, t), t)
  {
    hide TransactionOk, WasDeleted, RollBack;
    var x := s.transactions[t];
    var id := x.instance.sagaId;
    if x.phase.Upserted? && x.previous.None? && !x.inserted {
      RollBackKeeps(s, t, LostFirstSave);
    } else if x.phase.Upserted? {
      var x' := DoClearAssociations(s, t).transactions[t];
      ClearedOk(s.committed, LockOf(s.locks, id), WasDeleted(s.log, id), t, x, x');
      WithKeeps(s, t, x');
    } else {
      StayingKeeps(s, t);
    }
  }

  lemma ClearedOk(db: Database, lock: Option<TxId>, deleted: bool, t: TxId, x: Transaction, x': Transaction)
    requires TransactionOk(db, lock, deleted, t, x)
    requires x.phase.Upserted? && (x.previous.Some? || x.inserted)
    requires x' == x.(phase := Cleared, cleared := KeysOf(db.associations, x.instance.sagaId))
    ensures TransactionOk(db, lock, deleted, t, x')
  {
    hide Derived, Forward, NextSequence, Supported;
  }

  lemma InsertAssociationKeeps(s: Server, t: TxId, property: string)
    requires t in s.transactions && TransactionOf(s, t)
    ensures OnlyTransaction(s, DoInsertAssociation(s, t, property), t, s.transactions[t].instance.sagaId)
    ensures TransactionOf(DoInsertAssociation(s, t, property), t)
  {
    hide Derived, Forward, NextSequence, Supported;
  }

  /** No history row of a save that got this far collides with a committed row or another row of its batch. */
  lemma NoHistoryCollision(db: Database, lock: Option<TxId>, deleted: bool, t: TxId, x: Transaction)
    requires TransactionOk(db, lock, deleted, t, x) && ForeignKeys(db) && x.phase.Cleared? && x.written < |x.entries|
    ensures var e := x.entries[x.written];
            && (e.sagaId, e.sequenceNumber) !in db.history
            && forall i :: 0 <= i < x.written ==> x.entries[i].sequenceNumber != e.sequenceNumber
  {
    hide Derived, Forward, Supported;
    var id := x.instance.sagaId;
    DerivedNumbered(x.previous, x.instance, x.next);
    var key := (id, x.entries[x.written].sequenceNumber);
    NextNumberIsNext(KeysOf(db.history, id));
    assert key in KeysOf(db.history, id) <==> key in db.history;
  }

  lemma InsertHistoryKeeps(s: Server, t: TxId)
    requires t in s.transactions && TransactionOf(s, t) && ForeignKeys(s.committed)
    ensures OnlyTransaction(s, DoInsertHistory(s, t), t, s.transactions[t].instance.sagaId)
    ensures TransactionOf(DoInsertHistory(s, t), t)
  {
    hide Derived, Forward, NextSequence, Supported;
    var x := s.transactions[t];
    if x.phase.Cleared? && x.written < |x.entries| {
      NoHistoryCollision(s.committed, LockOf(s.locks, x.instance.sagaId), WasDeleted(s.log, x.instance.sagaId), t, x);
    }
  }

  // ----- commit ----------------------------------------------------------------------------------------------

  lemma DerivedIgnoresAssociations(p: SagaInstance, q: SagaInstance, instance: SagaInstance, next: int)
    requires Columns(p) == Columns(q)
    ensures Derived(Some(p), instance, next) == Derived(Some(q), instance, next)
    ensures Forward(p, instance) <==> Forward(q, instance)
  {
    assert forall n :: p.HasCompleted(n) <==> q.HasCompleted(n);
    assert NewlyCompleted(p, instance) == NewlyCompleted(q, instance);
    assert forall n :: KeepsCompletion(p, instance, n) <==> KeepsCompletion(q, instance, n);
  }

  /**
   * Atomicity of a save: when a transaction commits, its writes are exactly those of an undisturbed save run at
   * that moment, numbered from the sequence number it read.
   */
  lemma CommitIsUndisturbedSave(db: Database, lock: Option<TxId>, deleted: bool, t: TxId, x: Transaction)
    requires TransactionOk(db, lock, deleted, t, x) && MayCommit(x)
    ensures Applied(db, x) == Written(db, x.instance, x.next)
    ensures Accepted(db, x.instance)
    ensures x.inserted <==> x.instance.sagaId !in db.instances
  {
    hide Derived, Forward, Supported, NextSequence;
    var id := x.instance.sagaId;
    assert x.newAssociations == x.instance.associations;
    if id in db.instances {
      assert Columns(Load(db, id).value) == Columns(x.previous.value) by {
        assert db.instances[id] == Columns(x.previous.value);
      }
      DerivedIgnoresAssociations(x.previous.value, Load(db, id).value, x.instance, x.next);
    }
  }

  /** A save reads the next free number, unless its row was deleted after it read it and before its upsert. */
  lemma CommitNumber(db: Database, lock: Option<TxId>, deleted: bool, t: TxId, x: Transaction)
    requires TransactionOk(db, lock, deleted, t, x) && MayCommit(x) && ForeignKeys(db)
    ensures x.next >= 0
    ensures x.next == NextSequence(db, x.instance.sagaId)
         || (deleted && x.sawRow && x.instance.sagaId !in db.instances)
    ensures x.inserted ==> (x.next == 0 <==> !x.sawRow)
  {
    hide Derived, Forward, Supported, NextSequence;
    if x.inserted {
      NoRowsNextSequence(db, x.instance.sagaId);
    }
  }

  lemma OtherTransactionsSurviveCommit(s: Server, t: TxId, u: TxId)
    requires t in s.transactions && u in s.transactions && u != t && TransactionOf(s, t) && TransactionOf(s, u)
    requires MayCommit(s.transactions[t])
    ensures TransactionOf(DoCommit(s, t), u)
  {
    hide TransactionOk, Applied, Written, MayCommit, WasDeleted, Unlocked, Extended, Accepted;
    var x, y := s.transactions[t], s.transactions[u];
    var lock, deleted := LockOf(s.locks, x.instance.sagaId), WasDeleted(s.log, x.instance.sagaId);
    CommitIsUndisturbedSave(s.committed, lock, deleted, t, x);
    CommitterOwns(s.committed, lock, deleted, t, x);
    SavedNotDeleted(s.log, Saved(t, x.instance, x.next), y.instance.sagaId);
    UnlockedOthers(s, t, x.instance.sagaId, y.instance.sagaId);
    if y.instance.sagaId == x.instance.sagaId {
      SameSagaSurvives(s.committed, x, lock, LockOf(Unlocked(s, t, x.instance.sagaId), x.instance.sagaId), deleted, u,
                       y);
    } else {
      OtherSagaSurvives(s.committed, x, LockOf(s.locks, y.instance.sagaId), WasDeleted(s.log, y.instance.sagaId), u, y);
    }
  }

  lemma SavedNotDeleted(log: seq<Operation>, saved: Operation, id: SagaId)
    requires saved.Saved?
    ensures WasDeleted(log + [saved], id) == WasDeleted(log, id)
  {
  }

  lemma UnlockedOthers(s: Server, t: TxId, mine: SagaId, id: SagaId)
    ensures id != mine ==> LockOf(Unlocked(s, t, mine), id) == LockOf(s.locks, id)
    ensures LockOf(s.locks, mine) == Some(t) ==> LockOf(Unlocked(s, t, mine), mine) == None
  {
  }

  lemma SameSagaSurvives(db: Database, x: Transaction, lock: Option<TxId>, lock': Option<TxId>, deleted: bool, u: TxId,
                         y: Transaction)
    requires TransactionOk(db, lock, deleted, u, y) && lock != Some(u) && lock' != Some(u)
    requires y.instance.sagaId == x.instance.sagaId && Applied(db, x) == Written(db, x.instance, x.next)
    ensures TransactionOk(Applied(db, x), lock', deleted, u, y)
  {
    hide TransactionOk, Applied, Written;
    WrittenRows(db, x.instance, x.next);
    NotOwnerTransactionOk(db, Applied(db, x), lock, lock', deleted, deleted, u, y);
  }

  lemma OtherSagaSurvives(db: Database, x: Transaction, lock: Option<TxId>, deleted: bool, u: TxId, y: Transaction)
    requires TransactionOk(db, lock, deleted, u, y)
    requires y.instance.sagaId != x.instance.sagaId && Applied(db, x) == Written(db, x.instance, x.next)
    ensures TransactionOk(Applied(db, x), lock, deleted, u, y)
  {
    hide TransactionOk, Applied, Written, SameRows;
    WrittenElsewhere(db, x.instance, x.next, y.instance.sagaId);
    SameRowsTransactionOk(db, Applied(db, x), lock, deleted, u, y);
  }

  lemma CommitterOwns(db: Database, lock: Option<TxId>, deleted: bool, t: TxId, x: Transaction)
    requires TransactionOk(db, lock, deleted, t, x) && MayCommit(x)
    ensures lock == Some(t)
  {
  }

  lemma CommitKeepsTransactions(s: Server, t: TxId)
    requires TransactionsOk(s) && LocksOk(s) && t in s.transactions && MayCommit(s.transactions[t])
    ensures TransactionsOk(DoCommit(s, t)) && LocksOk(DoCommit(s, t))
  {
    hide TransactionOk, Applied, MayCommit;
    var s' := DoCommit(s, t);
    forall u | u in s'.transactions ensures TransactionOf(s', u) {
      if u == t {
        CommittedOk(s, t);
      } else {
        OtherTransactionsSurviveCommit(s, t, u);
      }
    }
    CommitterOwns(s.committed, LockOf(s.locks, s.transactions[t].instance.sagaId),
                  WasDeleted(s.log, s.transactions[t].instance.sagaId), t, s.transactions[t]);
  }

  lemma CommittedOk(s: Server, t: TxId)
    requires t in s.transactions && TransactionOf(s, t) && MayCommit(s.transactions[t])
    ensures TransactionOf(DoCommit(s, t), t)
  {
    hide Derived, Forward, NextSequence, Applied;
  }

  lemma CommitKeepsTables(s: Server, t: TxId)
    requires TablesOk(s) && t in s.transactions && TransactionOf(s, t) && MayCommit(s.transactions[t])
    ensures TablesOk(DoCommit(s, t))
  {
    hide TransactionOk, Applied, Written, MayCommit, Accepted, Holds, NextSequence, ForeignKeys;
    var s', x := DoCommit(s, t), s.transactions[t];
    var id := x.instance.sagaId;
    var lock, deleted := LockOf(s.locks, id), WasDeleted(s.log, id);
    CommitIsUndisturbedSave(s.committed, lock, deleted, t, x);
    CommitNumber(s.committed, lock, deleted, t, x);
    WrittenForeignKeys(s.committed, x.instance, x.next);
    WrittenKeys(s.committed, x.instance, x.next);
    forall other | other in s'.lineages ensures LineageOf(s', other) {
      assert WasDeleted(s'.log, other) == WasDeleted(s.log, other);
      if other != id {
        assert LineageOf(s, other);
        WrittenElsewhere(s.committed, x.instance, x.next, other);
        SameRowsHold(s.committed, s'.committed, other, s.lineages[other]);
      } else if x.inserted {
        FirstSaveHolds(s.committed, x.instance, x.next);
        FirstNumber(s.committed, id);
      } else {
        assert LineageOf(s, id);
        NextSaveHolds(s.committed, x.instance, s.lineages[id]);
      }
    }
  }

  lemma FirstNumber(db: Database, id: SagaId)
    requires ForeignKeys(db) && id !in db.instances
    ensures NextSequence(db, id) == 0
  {
    NoRowsNextSequence(db, id);
  }

  lemma WrittenKeys(db: Database, instance: SagaInstance, next: int)
    ensures Written(db, instance, next).instances.Keys == db.instances.Keys + {instance.sagaId}
  {
    hide Derived;
  }

  // ----- deletes and context writes --------------------------------------------------------------------------

  lemma DeleteKeepsTransactions(s: Server, id: SagaId)
    requires TransactionsOk(s) && LocksOk(s) && ForeignKeys(s.committed) && id in s.committed.instances
    requires id !in s.locks
    ensures TransactionsOk(DoDelete(s, id)) && LocksOk(DoDelete(s, id))
  {
    hide TransactionOk, Deleted, SameRows;
    var s' := DoDelete(s, id);
    DeletedRows(s.committed, id);
    forall t | t in s'.transactions ensures TransactionOf(s', t) {
      assert TransactionOf(s, t);
      var x := s.transactions[t];
      var own := x.instance.sagaId;
      if own == id {
        assert s'.log[|s.log|] == Removed(id);
        NotOwnerTransactionOk(s.committed, s'.committed, None, None, WasDeleted(s.log, id), true, t, x);
      } else {
        assert WasDeleted(s'.log, own) == WasDeleted(s.log, own);
        SameRowsTransactionOk(s.committed, s'.committed, LockOf(s.locks, own), WasDeleted(s.log, own), t, x);
      }
    }
  }

  lemma DeleteKeepsTables(s: Server, id: SagaId)
    requires TablesOk(s) && id in s.committed.instances && id !in s.locks
    ensures TablesOk(DoDelete(s, id))
  {
    hide Holds, SameRows, ForeignKeys;
    var s' := DoDelete(s, id);
    DeletedRows(s.committed, id);
    forall other | other in s'.lineages ensures LineageOf(s', other) {
      assert LineageOf(s, other);
      assert WasDeleted(s.log, other) ==> WasDeleted(s'.log, other);
      SameRowsHold(s.committed, s'.committed, other, s.lineages[other]);
    }
  }

  lemma SaveContextKeeps(s: Server, id: SagaId, value: string)
    requires TransactionsOk(s) && LocksOk(s) && TablesOk(s) && id in s.committed.instances
    ensures var s' := DoSaveContext(s, id, value); TransactionsOk(s') && LocksOk(s') && TablesOk(s')
  {
    hide Holds, TransactionOk;
    var s' := DoSaveContext(s, id, value);
    forall other ensures SameRows(s.committed, s'.committed, other) {
    }
    forall other ensures WasDeleted(s'.log, other) == WasDeleted(s.log, other) {
    }
    forall t | t in s'.transactions ensures TransactionOf(s', t) {
      assert TransactionOf(s, t);
      var x := s.transactions[t];
      SameRowsTransactionOk(s.committed, s'.committed, LockOf(s.locks, x.instance.sagaId),
                            WasDeleted(s.log, x.instance.sagaId), t, x);
    }
    forall other | other in s'.lineages ensures LineageOf(s', other) {
      assert LineageOf(s, other);
      SameRowsHold(s.committed, s'.committed, other, s.lineages[other]);
    }
  }

  // ----- every interleaving ----------------------------------------------------------------------------------

  ghost predicate Inv(s: Server) {
    TransactionsOk(s) && LocksOk(s) && TablesOk(s)
  }

  lemma OnlyTransactionInv(s: Server, s': Server, t: TxId, id: SagaId)
    requires Inv(s) && OnlyTransaction(s, s', t, id) && TransactionOf(s', t)
    ensures Inv(s')
  {
    hide OnlyTransaction, TransactionOf, TransactionsOk, LocksOk;
    OnlyTransactionKeeps(s, s', t, id);
    OnlyTransactionTables(s, s', t, id);
  }

  lemma OnlyTransactionTables(s: Server, s': Server, t: TxId, id: SagaId)
    requires TablesOk(s) && OnlyTransaction(s, s', t, id)
    ensures TablesOk(s')
  {
    hide Holds, ForeignKeys;
    forall other | other in s'.lineages ensures LineageOf(s', other) {
      assert LineageOf(s, other);
    }
  }

  lemma RowFacts(s: Server, id: SagaId)
    requires TablesOk(s)
    ensures id in s.committed.instances ==> s.committed.instances[id].associations == map[]
    ensures NextSequence(s.committed, id) >= 0
    ensures id in s.committed.instances <==> NextSequence(s.committed, id) > 0
  {
    hide NextSequence, HistoryOf, HistoryRows, ForwardChain, ForeignKeys;
    if id in s.committed.instances {
      assert LineageOf(s, id);
      var l := s.lineages[id];
      HistoryNotEmpty(l.snapshots, l.base);
      NextSequenceOfHistory(s.committed, id, l.base, HistoryOf(l.snapshots, l.base));
    } else {
      FirstNumber(s.committed, id);
    }
  }

  lemma TransactionStepInv(s: Server, a: Action)
    requires Inv(s) && !a.Begin? && !a.Delete? && !a.SaveContext? && a.tx in s.transactions
    ensures Inv(TransactionStep(s, a))
  {
    hide TransactionOf, LocksOk, OnlyTransaction, DoSelect, DoLock, DoReadSequence, DoUpsert, DoClearAssociations,
      DoInsertAssociation, DoInsertHistory, RollBack, LineageOf, NextSequence, ForeignKeys;
    var t := a.tx;
    var id := s.transactions[t].instance.sagaId;
    assert TransactionOf(s, t);
    RowFacts(s, id);
    match a
    case Select(_) => SelectKeeps(s, t); OnlyTransactionInv(s, DoSelect(s, t), t, id);
    case Lock(_) => LockKeeps(s, t); OnlyTransactionInv(s, DoLock(s, t), t, id);
    case ReadSequence(_) => ReadSequenceKeeps(s, t); OnlyTransactionInv(s, DoReadSequence(s, t), t, id);
    case Upsert(_) => UpsertKeeps(s, t); OnlyTransactionInv(s, DoUpsert(s, t), t, id);
    case ClearAssociations(_) => ClearAssociationsKeeps(s, t); OnlyTransactionInv(s, DoClearAssociations(s, t), t, id);
    case InsertAssociation(_, p) => InsertAssociationKeeps(s, t, p);
      OnlyTransactionInv(s, DoInsertAssociation(s, t, p), t, id);
    case InsertHistory(_) => InsertHistoryKeeps(s, t); OnlyTransactionInv(s, DoInsertHistory(s, t), t, id);
    case Abort(_) => RollBackKeeps(s, t, Failure); OnlyTransactionInv(s, RollBack(s, t, Failure), t, id);
    case Commit(_) => CommitInv(s, t);
  }

  lemma CommitInv(s: Server, t: TxId)
    requires Inv(s) && t in s.transactions
    ensures Inv(DoCommit(s, t))
  {
    hide TransactionOk, LocksOk, LineageOf, Applied, MayCommit, Extended, ForeignKeys;
    assert TransactionOf(s, t);
    if MayCommit(s.transactions[t]) {
      CommitKeepsTransactions(s, t);
      CommitKeepsTables(s, t);
    }
  }

  lemma StepInv(s: Server, a: Action)
    requires Inv(s)
    ensures Inv(Step(s, a))
  {
    hide TransactionOf, LocksOk, OnlyTransaction, LineageOf, DoDelete, DoSaveContext, TransactionStep;
    match a
    case Begin(t, instance) =>
      if t !in s.transactions {
        BeginKeeps(s, t, instance);
        OnlyTransactionInv(s, DoBegin(s, t, instance), t, instance.sagaId);
      }
    case Delete(id) => DeleteInv(s, id);
    case SaveContext(id, value) =>
      if id in s.committed.instances {
        SaveContextKeeps(s, id, value);
      } else {
        SaveContextIgnored(s, id, value);
      }
    case _ =>
      if a.tx in s.transactions {
        TransactionStepInv(s, a);
      }
  }

  lemma DeleteInv(s: Server, id: SagaId)
    requires Inv(s)
    ensures Inv(DoDelete(s, id))
  {
    hide TransactionOf, LocksOk, LineageOf, ForeignKeys;
    if id in s.committed.instances && id !in s.locks {
      DeleteKeepsTransactions(s, id);
      DeleteKeepsTables(s, id);
    }
  }

  lemma SaveContextIgnored(s: Server, id: SagaId, value: string)
    requires id !in s.committed.instances
    ensures DoSaveContext(s, id, value) == s
  {
  }

  lemma {:induction false} RunInv(actions: seq<Action>)
    ensures Inv(Run(actions))
  {
    if actions != [] {
      var n := |actions| - 1;
      RunInv(actions[..n]);
      StepInv(Run(actions[..n]), actions[n]);
    }
  }
}
