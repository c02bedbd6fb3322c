/**
 * That saves come to their end: some save of a saga can always go on, and a save that finds its row free, run on its
 * own, commits what it should or is rolled back for the reason the provider reports.
 */
module SaveProgress {
  import opened JsonCodec
  import opened Spi
  import opened LifecycleHistory
  import opened Tables
  import opened ConcurrentSaves
  import opened SaveGuarantees

  // ----- how far a save is from its end ----------------------------------------------------------------------

  /** The statements of a save, in the order it issues them; an association or history row is a statement each. */
  function Rank(x: Transaction): nat {
    match x.phase
    case Begun => 6
    case Selecting(_, _) => 5
    case Selected => 4
    case Sequenced => 3
    case Upserted => 2
    case Cleared => 1
    case Committed => 0
    case RolledBack(_) => 0
  }

  function Unwritten(x: Transaction): nat {
    |x.instance.associations.Keys - x.newAssociations.Keys|
    + if x.written <= |x.entries| then |x.entries| - x.written else 0
  }

  /** x' is x after one more of its statements. */
  predicate Nearer(x': Transaction, x: Transaction) {
    Rank(x') < Rank(x) || (Rank(x') == Rank(x) && Unwritten(x') < Unwritten(x))
  }

  predicate StatementOf(a: Action, t: TxId) {
    !a.Begin? && !a.Delete? && !a.SaveContext? && !a.Abort? && a.tx == t
  }

  ghost function NextStatement(x: Transaction, t: TxId): (a: Action)
    requires Active(x)
    ensures StatementOf(a, t)
  {
    match x.phase
    case Begun => Select(t)
    case Selecting(_, _) => Lock(t)
    case Selected => ReadSequence(t)
    case Sequenced => Upsert(t)
    case Upserted => ClearAssociations(t)
    case Cleared =>
      if p :| p in x.instance.associations && p !in x.newAssociations then InsertAssociation(t, p)
      else if x.written < |x.entries| then InsertHistory(t)
      else Commit(t)
  }

  /** It has come to a statement that needs the row's lock, and another transaction holds it. */
  predicate Waits(s: Server, t: TxId)
    requires t in s.transactions
  {
    (s.transactions[t].phase.Selecting? || s.transactions[t].phase.Sequenced?)
    && s.transactions[t].instance.sagaId in s.locks && s.locks[s.transactions[t].instance.sagaId] != t
  }

  // ----- a save run on its own -------------------------------------------------------------------------------

  /** It runs alone on the tables db: no one else holds the row's lock, and what it read is what is there. */
  ghost predicate Alone(db: Database, s: Server, t: TxId, instance: SagaInstance) {
    && Inv(s) && s.committed == db && t in s.transactions && !Blocked(s, t, instance.sagaId)
    && var x := s.transactions[t];
       && x.instance == instance && Active(x)
       && (x.phase.Selecting? ==>
             && instance.sagaId in db.instances && instance.sagaId in s.inserter
             && x.phase.seen == s.inserter[instance.sagaId]
             && x.phase.associations == RowsOf(db.associations, instance.sagaId))
       && (Owns(x) || x.phase.Selected? || x.phase.Sequenced? ==> x.previous == Load(db, instance.sagaId))
       && (PastSequence(x) ==> x.next == NextSequence(db, instance.sagaId))
  }

  /** What a save that ran alone on the tables db has done: its writes, or nothing and the reason why not. */
  ghost predicate EndedAlone(db: Database, s: Server, t: TxId, instance: SagaInstance) {
    && t in s.transactions
    && if instance.sagaId in db.instances && RejectedBy(Load(db, instance.sagaId).value, instance) then
         s.transactions[t].phase == RolledBack(NotForward) && s.committed == db
       else if !Supported(instance.state) then
         s.transactions[t].phase == RolledBack(UnsupportedState) && s.committed == db
       else
         && s.transactions[t].phase.Committed?
         && s.committed == Written(db, instance, NextSequence(db, instance.sagaId))
  }

  ghost predicate GoesOn(db: Database, s: Server, s': Server, t: TxId, instance: SagaInstance)
    requires t in s.transactions
  {
    EndedAlone(db, s', t, instance)
    || (Alone(db, s', t, instance) && Nearer(s'.transactions[t], s.transactions[t]))
  }

  lemma SelectGoesOn(db: Database, s: Server, t: TxId, instance: SagaInstance)
    requires Alone(db, s, t, instance) && s.transactions[t].phase.Begun?
    ensures Inv(DoSelect(s, t)) ==> GoesOn(db, s, DoSelect(s, t), t, instance)
  {
    hide Inv, EndedAlone, NextSequence, Unwritten, Load, RowsOf;
    RowsRead(s, t);
    LoadedIff(db, instance.sagaId);
  }

  /** From the invariant: before its first statement it has read nothing, and every row has an inserter. */
  lemma RowsRead(s: Server, t: TxId)
    requires Inv(s) && t in s.transactions
    ensures var x := s.transactions[t];
      && (x.phase.Begun? || x.phase.Selecting? ==> x.previous.None?)
      && (x.instance.sagaId in s.committed.instances <==> x.instance.sagaId in s.inserter)
  {
    hide LineageOf, ForeignKeys, LocksOk, SequenceIsCurrent, WritesAreCurrent;
    assert TransactionOf(s, t);
  }

  lemma LockGoesOn(db: Database, s: Server, t: TxId, instance: SagaInstance)
    requires Alone(db, s, t, instance) && s.transactions[t].phase.Selecting?
    ensures Inv(DoLock(s, t)) ==> GoesOn(db, s, DoLock(s, t), t, instance)
  {
    hide Inv, EndedAlone, NextSequence, Unwritten, RowsOf;
  }

  lemma ReadSequenceGoesOn(db: Database, s: Server, t: TxId, instance: SagaInstance)
    requires Alone(db, s, t, instance) && s.transactions[t].phase.Selected?
    ensures Inv(DoReadSequence(s, t)) ==> GoesOn(db, s, DoReadSequence(s, t), t, instance)
  {
    hide Inv, NextSequence, Unwritten, Load, Forward, RejectedBy, Derived, Written, Supported;
    RejectedIff(s.transactions[t]);
    LoadedIff(db, instance.sagaId);
  }

  lemma LoadedIff(db: Database, id: SagaId)
    ensures Load(db, id).Some? <==> id in db.instances
  {
  }

  lemma UpsertGoesOn(db: Database, s: Server, t: TxId, instance: SagaInstance)
    requires Alone(db, s, t, instance) && s.transactions[t].phase.Sequenced?
    ensures Inv(DoUpsert(s, t)) ==> GoesOn(db, s, DoUpsert(s, t), t, instance)
  {
    hide Inv, NextSequence, Unwritten, Load, RejectedBy, Written, Supported;
    NotRejected(s, t);
    LoadedIff(db, instance.sagaId);
  }

  /** From the invariant: after its sequence read it passed the forward check, after its upsert its state is stored. */
  lemma NotRejected(s: Server, t: TxId)
    requires Inv(s) && t in s.transactions && PastSequence(s.transactions[t])
    ensures var x := s.transactions[t];
      && (x.previous.Some? ==> !RejectedBy(x.previous.value, x.instance))
      && (x.phase.Upserted? || x.phase.Cleared? ==>
            && Supported(x.instance.state)
            && (x.inserted <==> x.instance.sagaId !in s.committed.instances))
  {
    hide LineageOf, ForeignKeys, LocksOk, Derived, Forward, NextSequence, RejectedBy, Supported;
    assert TransactionOf(s, t);
    RejectedIff(s.transactions[t]);
  }

  lemma ClearGoesOn(db: Database, s: Server, t: TxId, instance: SagaInstance)
    requires Alone(db, s, t, instance) && s.transactions[t].phase.Upserted?
    ensures Inv(DoClearAssociations(s, t)) ==> GoesOn(db, s, DoClearAssociations(s, t), t, instance)
  {
    hide Inv, EndedAlone, NextSequence, Unwritten, Load, RejectedBy, Supported, KeysOf;
    NotRejected(s, t);
    LoadedIff(db, instance.sagaId);
  }

  /** From the invariant: the rows it deleted are all there were, and what it inserted is its instance's. */
  lemma ClearedFacts(s: Server, t: TxId)
    requires Inv(s) && t in s.transactions && s.transactions[t].phase.Cleared?
    ensures var x := s.transactions[t];
      && x.cleared == KeysOf(s.committed.associations, x.instance.sagaId)
      && x.newAssociations.Keys <= x.instance.associations.Keys
      && x.written <= |x.entries|
  {
    hide LineageOf, ForeignKeys, LocksOk, Derived, Forward, NextSequence, Supported, KeysOf, SequenceIsCurrent;
    assert TransactionOf(s, t);
  }

  lemma AssociationMoves(x: Transaction, x': Transaction, property: string)
    requires x.phase.Cleared? && property in x.instance.associations && property !in x.newAssociations
    requires x' == x.(newAssociations := x.newAssociations[property := x.instance.associations[property]])
    ensures Nearer(x', x)
  {
    assert x.instance.associations.Keys - x'.newAssociations.Keys
           == (x.instance.associations.Keys - x.newAssociations.Keys) - {property};
  }

  lemma AssociationGoesOn(db: Database, s: Server, t: TxId, instance: SagaInstance, property: string)
    requires Alone(db, s, t, instance) && s.transactions[t].phase.Cleared?
    requires property in instance.associations && property !in s.transactions[t].newAssociations
    ensures Inv(DoInsertAssociation(s, t, property)) ==>
              GoesOn(db, s, DoInsertAssociation(s, t, property), t, instance)
  {
    hide EndedAlone, NextSequence, Load, Inv, Nearer;
    var x := s.transactions[t];
    ClearedFacts(s, t);
    assert (instance.sagaId, property) in db.associations ==> (instance.sagaId, property) in x.cleared;
    AssociationMoves(x, x.(newAssociations := x.newAssociations[property := instance.associations[property]]),
                     property);
  }

  lemma HistoryGoesOn(db: Database, s: Server, t: TxId, instance: SagaInstance)
    requires Alone(db, s, t, instance) && s.transactions[t].phase.Cleared?
    requires s.transactions[t].newAssociations.Keys == instance.associations.Keys
    requires s.transactions[t].written < |s.transactions[t].entries|
    ensures Inv(DoInsertHistory(s, t)) ==> GoesOn(db, s, DoInsertHistory(s, t), t, instance)
  {
    hide EndedAlone, NextSequence, Load, RejectedBy, Supported, LineageOf, ForeignKeys, LocksOk, TransactionOk;
    assert TransactionOf(s, t);
    NoHistoryCollision(db, LockOf(s.locks, instance.sagaId), WasDeleted(s.log, instance.sagaId), t, s.transactions[t]);
  }

  lemma CommitGoesOn(db: Database, s: Server, t: TxId, instance: SagaInstance)
    requires Alone(db, s, t, instance) && MayCommit(s.transactions[t])
    ensures EndedAlone(db, DoCommit(s, t), t, instance)
  {
    hide NextSequence, Load, RejectedBy, Supported, LineageOf, ForeignKeys, LocksOk, TransactionOk, Applied, Written,
         Accepted;
    assert TransactionOf(s, t);
    NotRejected(s, t);
    LoadedIff(db, instance.sagaId);
    CommitIsUndisturbedSave(db, LockOf(s.locks, instance.sagaId), WasDeleted(s.log, instance.sagaId), t,
                            s.transactions[t]);
  }

  lemma WriteGoesOn(db: Database, s: Server, t: TxId, instance: SagaInstance)
    requires Alone(db, s, t, instance) && s.transactions[t].phase.Cleared?
    ensures var a := NextStatement(s.transactions[t], t);
      Inv(Step(s, a)) ==> GoesOn(db, s, Step(s, a), t, instance)
  {
    hide EndedAlone, NextSequence, Load, GoesOn, DoInsertAssociation, DoInsertHistory, DoCommit, LineageOf,
         ForeignKeys, LocksOk, SequenceIsCurrent, PreviousIsCurrent;
    var x, a := s.transactions[t], NextStatement(s.transactions[t], t);
    assert TransactionOf(s, t);
    match a
    case InsertAssociation(_, property) => AssociationGoesOn(db, s, t, instance, property);
    case InsertHistory(_) => HistoryGoesOn(db, s, t, instance);
    case Commit(_) =>
      CommitGoesOn(db, s, t, instance);
      EndedGoesOn(db, s, DoCommit(s, t), t, instance);
  }

  lemma EndedGoesOn(db: Database, s: Server, s': Server, t: TxId, instance: SagaInstance)
    requires t in s.transactions && EndedAlone(db, s', t, instance)
    ensures GoesOn(db, s, s', t, instance)
  {
    hide EndedAlone, Alone;
  }

  lemma NextGoesOn(db: Database, s: Server, t: TxId, instance: SagaInstance)
    requires Alone(db, s, t, instance)
    ensures GoesOn(db, s, Step(s, NextStatement(s.transactions[t], t)), t, instance)
  {
    hide Inv, EndedAlone, GoesOn, DoSelect, DoLock, DoReadSequence, DoUpsert, DoClearAssociations,
         DoInsertAssociation, DoInsertHistory, DoCommit, Blocked, Load, NextSequence;
    var x, a := s.transactions[t], NextStatement(s.transactions[t], t);
    StepInv(s, a);
    match x.phase
    case Begun => SelectGoesOn(db, s, t, instance);
    case Selecting(_, _) => LockGoesOn(db, s, t, instance);
    case Selected => ReadSequenceGoesOn(db, s, t, instance);
    case Sequenced => UpsertGoesOn(db, s, t, instance);
    case Upserted => ClearGoesOn(db, s, t, instance);
    case Cleared => WriteGoesOn(db, s, t, instance);
  }

  ghost predicate EndsBy(db: Database, s: Server, t: TxId, instance: SagaInstance, statements: seq<Action>) {
    (forall a <- statements :: StatementOf(a, t)) && EndedAlone(db, Follow(s, statements), t, instance)
  }

  lemma {:induction false} AloneEnds(db: Database, s: Server, t: TxId, instance: SagaInstance)
    requires Alone(db, s, t, instance)
    ensures exists statements :: EndsBy(db, s, t, instance, statements)
    decreases Rank(s.transactions[t]), Unwritten(s.transactions[t])
  {
    hide Inv, EndedAlone, Step, Unwritten, Blocked, Load, NextSequence;
    var a := NextStatement(s.transactions[t], t);
    var s' := Step(s, a);
    NextGoesOn(db, s, t, instance);
    var rest: seq<Action> := [];
    if !EndedAlone(db, s', t, instance) {
      AloneEnds(db, s', t, instance);
      rest :| EndsBy(db, s', t, instance, rest);
    }
    FollowNext(s, a, rest);
    assert EndsBy(db, s, t, instance, [a] + rest);
  }

  /**
   * In every reachable state, a save that finds its row not locked, run on its own from its beginning, ends: rolled
   * back with nothing written if it is not a forward transition or its state cannot be stored, and otherwise committed
   * with the writes of the provider's save, numbered from the next free number.
   */
  lemma UndisturbedSave(actions: seq<Action>, t: TxId, instance: SagaInstance)
    requires t !in Run(actions).transactions && instance.sagaId !in Run(actions).locks
    ensures exists statements ::
              && (forall a <- statements :: StatementOf(a, t))
              && EndedAlone(Run(actions).committed, Run(actions + [Begin(t, instance)] + statements), t, instance)
  {
    hide Inv, EndedAlone, Step, Run, Follow, Load, NextSequence;
    var s, begun := Run(actions), actions + [Begin(t, instance)];
    RunInv(actions);
    RunInv(begun);
    BegunAlone(actions, t, instance);
    AloneEnds(s.committed, Run(begun), t, instance);
    var statements :| EndsBy(s.committed, Run(begun), t, instance, statements);
    RunIsFollow(begun);
    RunIsFollow(begun + statements);
    FollowSplit(INITIAL, begun, statements);
  }

  lemma BegunAlone(actions: seq<Action>, t: TxId, instance: SagaInstance)
    requires t !in Run(actions).transactions && instance.sagaId !in Run(actions).locks
    requires Inv(Run(actions + [Begin(t, instance)]))
    ensures Alone(Run(actions).committed, Run(actions + [Begin(t, instance)]), t, instance)
  {
    hide Inv, Load, NextSequence;
    var begun := actions + [Begin(t, instance)];
    assert begun[..|begun| - 1] == actions;
  }

  // ----- no save is stuck ------------------------------------------------------------------------------------

  lemma SelectMoves(s: Server, t: TxId)
    requires t in s.transactions && s.transactions[t].phase.Begun?
    ensures t in DoSelect(s, t).transactions && Rank(DoSelect(s, t).transactions[t]) < Rank(s.transactions[t])
  {
    hide RowsOf;
  }

  lemma LockMoves(s: Server, t: TxId)
    requires t in s.transactions && s.transactions[t].phase.Selecting? && !Waits(s, t)
    ensures t in DoLock(s, t).transactions && Rank(DoLock(s, t).transactions[t]) < Rank(s.transactions[t])
  {
    hide FromRow;
  }

  lemma ReadSequenceMoves(s: Server, t: TxId)
    requires t in s.transactions && s.transactions[t].phase.Selected?
    ensures t in DoReadSequence(s, t).transactions
    ensures Rank(DoReadSequence(s, t).transactions[t]) < Rank(s.transactions[t])
  {
    hide Derived, Forward, NextSequence, Unlocked;
  }

  lemma UpsertMoves(s: Server, t: TxId)
    requires t in s.transactions && s.transactions[t].phase.Sequenced? && !Waits(s, t)
    ensures t in DoUpsert(s, t).transactions && Rank(DoUpsert(s, t).transactions[t]) < Rank(s.transactions[t])
  {
    hide Supported, Unlocked;
  }

  lemma ClearAssociationsMoves(s: Server, t: TxId)
    requires t in s.transactions && s.transactions[t].phase.Upserted?
    ensures t in DoClearAssociations(s, t).transactions
    ensures Rank(DoClearAssociations(s, t).transactions[t]) < Rank(s.transactions[t])
  {
    hide KeysOf, Unlocked;
  }

  lemma ReadsMove(s: Server, t: TxId)
    requires t in s.transactions && Active(s.transactions[t]) && !s.transactions[t].phase.Cleared? && !Waits(s, t)
    ensures var s' := TransactionStep(s, NextStatement(s.transactions[t], t));
      t in s'.transactions && Nearer(s'.transactions[t], s.transactions[t])
  {
    hide Waits, Rank, Unwritten, DoSelect, DoLock, DoReadSequence, DoUpsert, DoClearAssociations;
    match s.transactions[t].phase
    case Begun => SelectMoves(s, t);
    case Selecting(_, _) => LockMoves(s, t);
    case Selected => ReadSequenceMoves(s, t);
    case Sequenced => UpsertMoves(s, t);
    case Upserted => ClearAssociationsMoves(s, t);
  }

  lemma EndMoves(x: Transaction, x': Transaction)
    requires x.phase.Cleared? && (x'.phase.Committed? || x'.phase.RolledBack?)
    ensures Nearer(x', x)
  {
  }

  lemma HistoryMoves(x: Transaction)
    requires x.phase.Cleared? && x.written < |x.entries|
    ensures Nearer(x.(written := x.written + 1), x)
  {
  }

  lemma InsertAssociationMoves(s: Server, t: TxId, property: string)
    requires t in s.transactions && s.transactions[t].phase.Cleared?
    requires property in s.transactions[t].instance.associations && property !in s.transactions[t].newAssociations
    ensures var s' := DoInsertAssociation(s, t, property);
      t in s'.transactions && Nearer(s'.transactions[t], s.transactions[t])
  {
    hide Unlocked, Nearer;
    var x := s.transactions[t];
    EndMoves(x, x.(phase := RolledBack(DuplicateKey)));
    AssociationMoves(x, x.(newAssociations := x.newAssociations[property := x.instance.associations[property]]),
                     property);
  }

  lemma InsertHistoryMoves(s: Server, t: TxId)
    requires t in s.transactions && s.transactions[t].phase.Cleared?
    requires s.transactions[t].newAssociations.Keys == s.transactions[t].instance.associations.Keys
    requires s.transactions[t].written < |s.transactions[t].entries|
    ensures var s' := DoInsertHistory(s, t); t in s'.transactions && Nearer(s'.transactions[t], s.transactions[t])
  {
    hide Unlocked, Nearer;
    var x := s.transactions[t];
    EndMoves(x, x.(phase := RolledBack(DuplicateKey)));
    HistoryMoves(x);
  }

  lemma CommitMoves(s: Server, t: TxId)
    requires t in s.transactions && MayCommit(s.transactions[t])
    ensures var s' := DoCommit(s, t); t in s'.transactions && Nearer(s'.transactions[t], s.transactions[t])
  {
    hide Applied, Extended, Unlocked, Unwritten;
  }

  lemma WritesMove(s: Server, t: TxId)
    requires Inv(s) && t in s.transactions && s.transactions[t].phase.Cleared?
    ensures var s' := TransactionStep(s, NextStatement(s.transactions[t], t));
      t in s'.transactions && Nearer(s'.transactions[t], s.transactions[t])
  {
    hide Inv, KeysOf, Nearer, DoInsertAssociation, DoInsertHistory, DoCommit;
    ClearedFacts(s, t);
    match NextStatement(s.transactions[t], t)
    case InsertAssociation(_, property) => InsertAssociationMoves(s, t, property);
    case InsertHistory(_) => InsertHistoryMoves(s, t);
    case Commit(_) => CommitMoves(s, t);
  }

  lemma Moves(s: Server, t: TxId)
    requires Inv(s) && t in s.transactions && Active(s.transactions[t]) && !Waits(s, t)
    ensures var s' := Step(s, NextStatement(s.transactions[t], t));
      t in s'.transactions && Nearer(s'.transactions[t], s.transactions[t])
  {
    hide Inv, TransactionStep, Nearer, Waits;
    if s.transactions[t].phase.Cleared? {
      WritesMove(s, t);
    } else {
      ReadsMove(s, t);
    }
  }

  ghost predicate CanGoOn(s: Server, u: TxId)
    requires u in s.transactions
  {
    && Active(s.transactions[u])
    && exists a ::
         StatementOf(a, u) && u in Step(s, a).transactions && Nearer(Step(s, a).transactions[u], s.transactions[u])
  }

  /**
   * No deadlock: in every reachable state, for a save that has not ended, it or the save of the same saga that holds
   * the row's lock can go on with a statement of its own, and comes nearer to its end by it.
   */
  lemma NoDeadlock(actions: seq<Action>, t: TxId)
    requires t in Run(actions).transactions && Active(Run(actions).transactions[t])
    ensures var s := Run(actions);
      exists u <- s.transactions ::
        s.transactions[u].instance.sagaId == s.transactions[t].instance.sagaId && CanGoOn(s, u)
        && (u == t || (Waits(s, t) && LockOf(s.locks, s.transactions[t].instance.sagaId) == Some(u)))
  {
    hide TransactionsOk, TablesOk, Step, Nearer, Run;
    var s := Run(actions);
    RunInv(actions);
    var u := if Waits(s, t) then s.locks[s.transactions[t].instance.sagaId] else t;
    Moves(s, u);
    assert StatementOf(NextStatement(s.transactions[u], u), u);
    assert CanGoOn(s, u);
  }

  /** A failure from outside ends any save that has not ended: nothing is written, and no lock stays its own. */
  lemma AbortEnds(actions: seq<Action>, t: TxId)
    requires t in Run(actions).transactions && Active(Run(actions).transactions[t])
    ensures var s := Run(actions); var s' := Step(s, Abort(t));
      && s'.committed == s.committed && s'.log == s.log
      && s'.transactions == s.transactions[t := s.transactions[t].(phase := RolledBack(Failure))]
      && (forall id :: id in s'.locks <==> id in s.locks && s.locks[id] != t)
      && (forall id <- s'.locks :: s'.locks[id] == s.locks[id])
  {
    hide TransactionsOk, TablesOk, Run;
    RunInv(actions);
  }
}
