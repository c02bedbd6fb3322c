/** What PostgresStorageProvider.save promises, for every interleaving of any number of saves and deletes. */
module SaveGuarantees {
  import opened JsonCodec
  import opened Spi
  import opened LifecycleHistory
  import opened Tables
  import opened ConcurrentSaves

  // ----- serial equivalence ----------------------------------------------------------------------------------

  /** One operation, undisturbed by any other. */
  ghost function Perform(db: Database, op: Operation): Database {
    match op
    case Saved(_, instance, next) => Written(db, instance, next)
    case Removed(id) => Deleted(db, id)
    case ContextSaved(id, value) => db.(contexts := db.contexts[id := value])
  }

  /** The operations one after the other, from empty tables. */
  ghost function Replay(log: seq<Operation>): Database {
    if log == [] then EMPTY
    else Perform(Replay(log[..|log| - 1]), log[|log| - 1])
  }

  /** What an undisturbed save would do: pass the forward check and take the next number; see also NumberShift. */
  ghost predicate Legal(before: seq<Operation>, op: Operation) {
    var db := Replay(before);
    match op
    case Saved(_, instance, next) =>
      && Accepted(db, instance)
      && (next == NextSequence(db, instance.sagaId)
          || (WasDeleted(before, instance.sagaId) && instance.sagaId !in db.instances))
    case Removed(id) => id in db.instances
    case ContextSaved(id, _) => id in db.instances
  }

  ghost predicate LegalLog(log: seq<Operation>) {
    forall k :: 0 <= k < |log| ==> Legal(log[..k], log[k])
  }

  ghost predicate Serial(s: Server) {
    s.committed == Replay(s.log) && LegalLog(s.log)
  }

  lemma LogGrows(log: seq<Operation>, op: Operation)
    requires LegalLog(log) && Legal(log, op)
    ensures LegalLog(log + [op]) && Replay(log + [op]) == Perform(Replay(log), op)
  {
    hide Legal, Perform;
    var all := log + [op];
    assert all[..|log|] == log;
    forall k | 0 <= k < |all| ensures Legal(all[..k], all[k]) {
      if k < |log| {
        assert all[..k] == log[..k];
      }
    }
  }

  lemma CommitSerial(s: Server, t: TxId)
    requires Inv(s) && Serial(s) && t in s.transactions
    ensures Serial(DoCommit(s, t))
  {
    hide TransactionOk, LocksOk, LineageOf, Applied, Written, MayCommit, Extended, LegalLog, NextSequence, Accepted;
    var x := s.transactions[t];
    if MayCommit(x) {
      assert TransactionOf(s, t);
      var lock, deleted := LockOf(s.locks, x.instance.sagaId), WasDeleted(s.log, x.instance.sagaId);
      CommitIsUndisturbedSave(s.committed, lock, deleted, t, x);
      CommitNumber(s.committed, lock, deleted, t, x);
      LogGrows(s.log, Saved(t, x.instance, x.next));
    }
  }

  // ----- what a step short of a commit changes ---------------------------------------------------------------

  /** s' differs from s only in transaction t and in locks; t is neither committed before nor after, if it changed. */
  predicate Uncommitted(s: Server, s': Server, t: TxId)
    requires t in s.transactions
  {
    && s'.committed == s.committed && s'.log == s.log && s'.lineages == s.lineages && t in s'.transactions
    && s'.transactions == s.transactions[t := s'.transactions[t]]
    && (s'.transactions[t] == s.transactions[t]
        || (!s.transactions[t].phase.Committed? && !s'.transactions[t].phase.Committed?))
  }

  lemma SameTransactions(s: Server, t: TxId)
    requires t in s.transactions
    ensures s.transactions == s.transactions[t := s.transactions[t]]
  {
  }

  lemma RolledBackUncommitted(s: Server, t: TxId, reason: Rollback)
    requires t in s.transactions && !s.transactions[t].phase.Committed?
    ensures Uncommitted(s, RollBack(s, t, reason), t)
  {
  }

  lemma WithUncommitted(s: Server, t: TxId, x': Transaction)
    requires t in s.transactions && !s.transactions[t].phase.Committed? && !x'.phase.Committed?
    ensures Uncommitted(s, With(s, t, x'), t)
  {
  }

  lemma SelectUncommitted(s: Server, t: TxId)
    requires t in s.transactions
    ensures Uncommitted(s, DoSelect(s, t), t)
  {
    hide RowsOf;
    SameTransactions(s, t);
  }

  lemma LockUncommitted(s: Server, t: TxId)
    requires t in s.transactions
    ensures Uncommitted(s, DoLock(s, t), t)
  {
    hide FromRow;
    SameTransactions(s, t);
  }

  lemma ReadSequenceUncommitted(s: Server, t: TxId)
    requires t in s.transactions
    ensures Uncommitted(s, DoReadSequence(s, t), t)
  {
    hide Forward, Derived, NextSequence;
    SameTransactions(s, t);
  }

  lemma UpsertUncommitted(s: Server, t: TxId)
    requires t in s.transactions
    ensures Uncommitted(s, DoUpsert(s, t), t)
  {
    hide Supported;
    SameTransactions(s, t);
  }

  lemma ClearAssociationsUncommitted(s: Server, t: TxId)
    requires t in s.transactions
    ensures Uncommitted(s, DoClearAssociations(s, t), t)
  {
    hide KeysOf;
    SameTransactions(s, t);
  }

  lemma InsertHistoryUncommitted(s: Server, t: TxId)
    requires t in s.transactions
    ensures Uncommitted(s, DoInsertHistory(s, t), t)
  {
    hide With, RollBack;
    SameTransactions(s, t);
    var x := s.transactions[t];
    if x.phase.Cleared? {
      RolledBackUncommitted(s, t, DuplicateKey);
      WithUncommitted(s, t, x.(written := x.written + 1));
    }
  }

  lemma AbortUncommitted(s: Server, t: TxId)
    requires t in s.transactions
    ensures Uncommitted(s, DoAbort(s, t), t)
  {
    SameTransactions(s, t);
  }

  lemma InsertAssociationUncommitted(s: Server, t: TxId, property: string)
    requires t in s.transactions
    ensures Uncommitted(s, DoInsertAssociation(s, t, property), t)
  {
    hide With, RollBack;
    SameTransactions(s, t);
    var x := s.transactions[t];
    if x.phase.Cleared? && property in x.instance.associations {
      RolledBackUncommitted(s, t, DuplicateKey);
      WithUncommitted(s, t, x.(newAssociations := x.newAssociations[property := x.instance.associations[property]]));
    }
  }

  lemma TransactionStepLocal(s: Server, a: Action)
    requires !a.Commit? && !a.Begin? && !a.Delete? && !a.SaveContext? && a.tx in s.transactions
    ensures Uncommitted(s, TransactionStep(s, a), a.tx)
  {
    hide Uncommitted, DoSelect, DoLock, DoReadSequence, DoUpsert, DoClearAssociations, DoInsertAssociation,
         DoInsertHistory, DoAbort;
    match a
    case Select(t) => SelectUncommitted(s, t);
    case Lock(t) => LockUncommitted(s, t);
    case ReadSequence(t) => ReadSequenceUncommitted(s, t);
    case Upsert(t) => UpsertUncommitted(s, t);
    case ClearAssociations(t) => ClearAssociationsUncommitted(s, t);
    case InsertAssociation(t, property) => InsertAssociationUncommitted(s, t, property);
    case InsertHistory(t) => InsertHistoryUncommitted(s, t);
    case Abort(t) => AbortUncommitted(s, t);
  }

  lemma StepIsCommit(s: Server, t: TxId)
    requires t in s.transactions
    ensures Step(s, Commit(t)) == DoCommit(s, t)
  {
    hide DoCommit;
  }

  /** A step that is no commit leaves the log alone and neither commits nor changes a committed transaction. */
  lemma NothingCommittedBy(s: Server, a: Action)
    requires !a.Commit? && !a.Delete? && !a.SaveContext?
    ensures var s' := Step(s, a);
      && s'.committed == s.committed && s'.log == s.log && s'.lineages == s.lineages
      && s.transactions.Keys <= s'.transactions.Keys
      && (forall t <- s'.transactions :: s'.transactions[t].phase.Committed? ==>
            t in s.transactions && s'.transactions[t] == s.transactions[t])
      && (forall t <- s.transactions :: s.transactions[t].phase.Committed? ==> s'.transactions[t] == s.transactions[t])
  {
    hide TransactionStep;
    if !a.Begin? && a.tx in s.transactions {
      TransactionStepLocal(s, a);
    }
  }

  // ----- serializability -------------------------------------------------------------------------------------

  lemma StepSerial(s: Server, a: Action)
    requires Inv(s) && Serial(s)
    ensures Serial(Step(s, a))
  {
    hide Inv, DoCommit, Replay, LegalLog, Deleted, TransactionStep;
    match a
    case Begin(_, _) => NothingCommittedBy(s, a);
    case Delete(id) =>
      if id in s.committed.instances && id !in s.locks {
        OutsideSerial(s, Removed(id));
        SerialFrom(s, Step(s, a), Removed(id));
      }
    case SaveContext(id, value) =>
      if id in s.committed.instances {
        OutsideSerial(s, ContextSaved(id, value));
        SerialFrom(s, Step(s, a), ContextSaved(id, value));
      }
    case Commit(t) =>
      if t in s.transactions {
        StepIsCommit(s, t);
        CommitSerial(s, t);
      }
    case _ => NothingCommittedBy(s, a);
  }

  lemma OutsideSerial(s: Server, op: Operation)
    requires Serial(s)
    requires (op.Removed? || op.ContextSaved?) && op.id in s.committed.instances
    ensures LegalLog(s.log + [op]) && Replay(s.log + [op]) == Perform(s.committed, op)
  {
    hide LegalLog;
    LogGrows(s.log, op);
  }

  lemma SerialFrom(s: Server, s': Server, op: Operation)
    requires s'.log == s.log + [op] && s'.committed == Perform(s.committed, op)
    requires LegalLog(s.log + [op]) && Replay(s.log + [op]) == Perform(s.committed, op)
    ensures Serial(s')
  {
  }

  /**
   * However the statements of concurrent saves interleave, the committed tables are those of the committed saves
   * (and deletes) run one after the other in commit order, each of them accepted by the forward check.
   */
  lemma {:induction false} Serializable(actions: seq<Action>)
    ensures Run(actions).committed == Replay(Run(actions).log)
    ensures LegalLog(Run(actions).log)
  {
    if actions != [] {
      hide Inv, Step, LegalLog;
      var n := |actions| - 1;
      Serializable(actions[..n]);
      RunInv(actions[..n]);
      StepSerial(Run(actions[..n]), actions[n]);
      assert Run(actions) == Step(Run(actions[..n]), actions[n]);
    }
  }

  // ----- the history of one saga -----------------------------------------------------------------------------

  /** The snapshots of id saved since it was last deleted, in commit order. */
  ghost function SnapshotsIn(log: seq<Operation>, id: SagaId): seq<SagaInstance> {
    if log == [] then []
    else
      var before := SnapshotsIn(log[..|log| - 1], id);
      var op := log[|log| - 1];
      if op.Saved? && op.instance.sagaId == id then before + [op.instance]
      else if op == Removed(id) then []
      else before
  }

  ghost predicate LineagesFromLog(s: Server) {
    && (forall id <- s.lineages :: s.lineages[id].snapshots == SnapshotsIn(s.log, id))
    && (forall id :: id !in s.lineages ==> SnapshotsIn(s.log, id) == [])
  }

  lemma SnapshotsGrow(log: seq<Operation>, op: Operation, id: SagaId)
    ensures SnapshotsIn(log + [op], id) ==
            if op.Saved? && op.instance.sagaId == id then SnapshotsIn(log, id) + [op.instance]
            else if op == Removed(id) then [] else SnapshotsIn(log, id)
  {
    assert (log + [op])[..|log|] == log;
  }

  lemma StepLineages(s: Server, a: Action)
    requires Inv(s) && LineagesFromLog(s)
    ensures LineagesFromLog(Step(s, a))
  {
    hide Inv, SnapshotsIn, Deleted, TransactionStep, DoCommit, LineagesFromLog;
    match a
    case Begin(_, _) => SameLineages(s, a);
    case Commit(t) =>
      if t in s.transactions {
        StepIsCommit(s, t);
        CommitLineages(s, t);
      }
    case Delete(id) => DeleteLineages(s, id);
    case SaveContext(id, value) => ContextLineages(s, id, value);
    case _ => SameLineages(s, a);
  }

  lemma SameLineages(s: Server, a: Action)
    requires LineagesFromLog(s) && !a.Commit? && !a.Delete? && !a.SaveContext?
    ensures LineagesFromLog(Step(s, a))
  {
    hide Step, SnapshotsIn;
    NothingCommittedBy(s, a);
  }

  lemma CommitLineages(s: Server, t: TxId)
    requires Inv(s) && LineagesFromLog(s) && t in s.transactions
    ensures LineagesFromLog(DoCommit(s, t))
  {
    hide Inv, SnapshotsIn, Applied, MayCommit, Unlocked;
    var x := s.transactions[t];
    if MayCommit(x) {
      InsertedIffNew(s, t);
      var op := Saved(t, x.instance, x.next);
      forall id ensures SnapshotsIn(s.log + [op], id) ==
                        if x.instance.sagaId == id then SnapshotsIn(s.log, id) + [x.instance]
                            else SnapshotsIn(s.log, id) {
        SnapshotsGrow(s.log, op, id);
      }
    }
  }

  lemma DeleteLineages(s: Server, id: SagaId)
    requires LineagesFromLog(s)
    ensures LineagesFromLog(DoDelete(s, id))
  {
    hide SnapshotsIn, Deleted;
    forall other ensures SnapshotsIn(s.log + [Removed(id)], other) ==
                         if id == other then [] else SnapshotsIn(s.log, other) {
      SnapshotsGrow(s.log, Removed(id), other);
    }
  }

  lemma ContextLineages(s: Server, id: SagaId, value: string)
    requires LineagesFromLog(s)
    ensures LineagesFromLog(DoSaveContext(s, id, value))
  {
    hide SnapshotsIn;
    forall other ensures SnapshotsIn(s.log + [ContextSaved(id, value)], other) == SnapshotsIn(s.log, other) {
      SnapshotsGrow(s.log, ContextSaved(id, value), other);
    }
  }

  lemma InsertedIffNew(s: Server, t: TxId)
    requires Inv(s) && t in s.transactions && MayCommit(s.transactions[t])
    ensures var x := s.transactions[t]; x.inserted <==> x.instance.sagaId !in s.lineages
  {
    hide LocksOk, LineageOf, ForeignKeys, Derived, Forward;
    assert TransactionOf(s, t);
  }

  lemma {:induction false} RunLineages(actions: seq<Action>)
    ensures LineagesFromLog(Run(actions))
  {
    hide Step, Inv;
    if actions == [] {
      assert forall id :: SnapshotsIn([], id) == [];
    } else {
      var n := |actions| - 1;
      RunInv(actions[..n]);
      RunLineages(actions[..n]);
      StepLineages(Run(actions[..n]), actions[n]);
    }
  }

  /**
   * For every interleaving and every stored saga: the instance and association rows are its last committed
   * snapshot; the history rows are the diffs along the chain of its committed snapshots, starting from none,
   * numbered without gap or duplicate from some base, which is 0 unless the saga was ever deleted.
   */
  lemma HistoryIsTheCommittedChain(actions: seq<Action>, id: SagaId)
    requires id in Run(actions).committed.instances
    ensures var s := Run(actions); var chain := SnapshotsIn(s.log, id);
      && chain != [] && ForwardChain(chain)
      && Load(s.committed, id) == Some(chain[|chain| - 1])
      && exists base :: base >= 0 && (!WasDeleted(s.log, id) ==> base == 0)
           && HistoryRows(s.committed, id, base, HistoryOf(chain, base))
  {
    hide HistoryOf, HistoryRows, ForwardChain, TransactionsOk, LocksOk, ForeignKeys, SnapshotsIn, Run;
    var s := Run(actions);
    RunInv(actions);
    RunLineages(actions);
    assert LineageOf(s, id);
    HoldsLoad(s.committed, id, s.lineages[id]);
    assert HistoryRows(s.committed, id, s.lineages[id].base, HistoryOf(s.lineages[id].snapshots, s.lineages[id].base));
  }

  /**
   * The association table is a correct index under any interleaving: it has a row for a saga, property and value iff
   * the saga's last committed snapshot since its last deletion has that association.
   */
  lemma IndexIsTheCommittedChain(actions: seq<Action>, id: SagaId, property: string)
    ensures var s := Run(actions); var chain := SnapshotsIn(s.log, id);
      && ((id, property) in s.committed.associations <==> chain != [] && property in chain[|chain| - 1].associations)
      && ((id, property) in s.committed.associations ==>
            s.committed.associations[(id, property)] == chain[|chain| - 1].associations[property])
  {
    hide HistoryOf, HistoryRows, ForwardChain, TransactionsOk, LocksOk, SnapshotsIn, Run;
    var s := Run(actions);
    RunInv(actions);
    RunLineages(actions);
    if id in s.committed.instances {
      assert LineageOf(s, id);
    }
  }

  /** That history is faithful: see LifecycleHistory.Faithful. */
  lemma CommittedHistoryFaithful(actions: seq<Action>, id: SagaId)
    requires id in Run(actions).committed.instances
    ensures var chain := SnapshotsIn(Run(actions).log, id);
      chain != [] && forall base :: Faithful(HistoryOf(chain, base), chain[0], chain[|chain| - 1])
  {
    hide HistoryOf, Faithful, Run, HistoryRows;
    HistoryIsTheCommittedChain(actions, id);
    var chain := SnapshotsIn(Run(actions).log, id);
    forall base ensures Faithful(HistoryOf(chain, base), chain[0], chain[|chain| - 1]) {
      HistoryFaithful(chain, base);
    }
  }

  /**
   * After every interleaving each history row of a stored saga tells of one of its committed saves: the creation at the
   * time the snapshot gives, a step with its aggregates, or the end with its outcome or failure, at its modification.
   */
  lemma CommittedHistoryTells(actions: seq<Action>, id: SagaId, n: int)
    requires id in Run(actions).committed.instances && (id, n) in Run(actions).committed.history
    ensures var s := Run(actions); var chain := SnapshotsIn(s.log, id);
      exists k :: 0 <= k < |chain| && Tells(s.committed.history[(id, n)], Before(chain, k), chain[k])
  {
    hide HistoryOf, Run, SnapshotsIn, Tells, ForwardChain, HistoryRows;
    HistoryIsTheCommittedChain(actions, id);
    var s := Run(actions);
    var chain := SnapshotsIn(s.log, id);
    var base :| HistoryRows(s.committed, id, base, HistoryOf(chain, base));
    HistoryTells(chain, base);
    RowAt(s.committed, id, base, HistoryOf(chain, base), n);
  }

  lemma RowAt(db: Database, id: SagaId, base: int, h: seq<LifecycleEntry>, n: int)
    requires HistoryRows(db, id, base, h) && (id, n) in db.history
    ensures base <= n < base + |h| && db.history[(id, n)] == h[n - base]
  {
  }

  /** No lost update: what one save committed, no later committed save undoes. */
  lemma NoLostUpdate(actions: seq<Action>, id: SagaId, i: nat, j: nat)
    requires id in Run(actions).committed.instances
    requires i <= j < |SnapshotsIn(Run(actions).log, id)|
    ensures var chain := SnapshotsIn(Run(actions).log, id);
      && (forall n :: chain[i].HasCompleted(n) ==>
            chain[j].HasCompleted(n) && chain[j].steps[n].touched == chain[i].steps[n].touched)
      && (Terminal(chain[i].status) ==> chain[j].status == chain[i].status)
  {
    hide HistoryOf, Run, HistoryRows;
    HistoryIsTheCommittedChain(actions, id);
    var chain := SnapshotsIn(Run(actions).log, id);
    ForwardFromEveryEarlier(chain, i, j);
    forall n | chain[i].HasCompleted(n)
      ensures chain[j].HasCompleted(n) && chain[j].steps[n].touched == chain[i].steps[n].touched {
      assert KeepsCompletion(chain[i], chain[j], n);
    }
  }

  // ----- a save that does not commit leaves no trace ---------------------------------------------------------

  /** The log holds exactly one save, of its own instance, for each committed transaction, and none for any other. */
  ghost predicate OncePerCommit(s: Server) {
    SavesCommitted(s.log, s.transactions) && CommitsSaved(s.log, s.transactions)
  }

  predicate SavesCommitted(log: seq<Operation>, transactions: map<TxId, Transaction>) {
    && (forall k :: 0 <= k < |log| && log[k].Saved? ==>
          && log[k].tx in transactions
          && transactions[log[k].tx].phase.Committed?
          && transactions[log[k].tx].instance == log[k].instance)
    && (forall j, k :: 0 <= j < k < |log| && log[j].Saved? && log[k].Saved? ==> log[j].tx != log[k].tx)
  }

  ghost predicate CommitsSaved(log: seq<Operation>, transactions: map<TxId, Transaction>) {
    forall t <- transactions :: transactions[t].phase.Committed? ==> HasSave(log, t)
  }

  ghost predicate HasSave(log: seq<Operation>, t: TxId) {
    exists op <- log :: op.Saved? && op.tx == t
  }

  lemma SaveStaysLogged(log: seq<Operation>, op: Operation, t: TxId)
    requires HasSave(log, t)
    ensures HasSave(log + [op], t)
  {
    var saved :| saved in log && saved.Saved? && saved.tx == t;
    assert saved in log + [op];
  }

  lemma StepOncePerCommit(s: Server, a: Action)
    requires OncePerCommit(s)
    ensures OncePerCommit(Step(s, a))
  {
    hide Applied, Extended, Deleted;
    if a.Commit? {
      if a.tx in s.transactions && MayCommit(s.transactions[a.tx]) {
        CommitOnce(s, a.tx);
      }
    } else if a.Delete? || a.SaveContext? {
      LogOutside(s, a);
    } else {
      NothingCommittedBy(s, a);
    }
  }

  lemma CommitOnce(s: Server, t: TxId)
    requires OncePerCommit(s) && t in s.transactions && MayCommit(s.transactions[t])
    ensures OncePerCommit(DoCommit(s, t))
  {
    hide Applied, Extended, HasSave;
    var s', op := DoCommit(s, t), Saved(t, s.transactions[t].instance, s.transactions[t].next);
    assert s'.log == s.log + [op];
    assert HasSave(s'.log, t) by {
      SaveIsLogged(s.log, op);
    }
    forall u | u in s'.transactions && s'.transactions[u].phase.Committed? ensures HasSave(s'.log, u) {
      if u != t {
        SaveStaysLogged(s.log, op, u);
      }
    }
  }

  lemma SaveIsLogged(log: seq<Operation>, op: Operation)
    requires op.Saved?
    ensures HasSave(log + [op], op.tx)
  {
    assert op in log + [op];
  }

  lemma LogOutside(s: Server, a: Action)
    requires OncePerCommit(s) && (a.Delete? || a.SaveContext?)
    ensures OncePerCommit(Step(s, a))
  {
    hide Deleted, OncePerCommit, TransactionStep;
    LoggedOutside(s, Step(s, a));
  }

  /** An operation that is no save, logged or not. */
  lemma LoggedOutside(s: Server, s': Server)
    requires OncePerCommit(s) && s'.transactions == s.transactions
    requires s'.log == s.log || (|s'.log| == |s.log| + 1 && s'.log[..|s.log|] == s.log && !s'.log[|s.log|].Saved?)
    ensures OncePerCommit(s')
  {
    hide SavesCommitted, CommitsSaved;
    if s'.log != s.log {
      var op := s'.log[|s.log|];
      assert s'.log == s.log + [op];
      NoSaveAdded(s.log, op, s.transactions);
    }
  }

  lemma NoSaveAdded(log: seq<Operation>, op: Operation, transactions: map<TxId, Transaction>)
    requires SavesCommitted(log, transactions) && CommitsSaved(log, transactions) && !op.Saved?
    ensures SavesCommitted(log + [op], transactions) && CommitsSaved(log + [op], transactions)
  {
    hide HasSave;
    forall t | t in transactions && transactions[t].phase.Committed? ensures HasSave(log + [op], t) {
      SaveStaysLogged(log, op, t);
    }
  }

  /**
   * The save that lost a race, failed, or is still running left nothing: the replayed log, which by Serializable
   * is all there is in the tables, has one save per committed transaction and none of any other.
   */
  lemma {:induction false} OnlyCommittedSavesLeaveTraces(actions: seq<Action>)
    ensures OncePerCommit(Run(actions))
  {
    if actions != [] {
      hide Step, OncePerCommit;
      var n := |actions| - 1;
      OnlyCommittedSavesLeaveTraces(actions[..n]);
      StepOncePerCommit(Run(actions[..n]), actions[n]);
    }
  }

  // ----- where numbering starts ------------------------------------------------------------------------------

  /**
   * The history of a saga starts at the number its creating save read, and that is 0 iff the save read it while
   * no instance row was committed.
   */
  lemma NumberingStartsAtZeroIff(actions: seq<Action>, t: TxId)
    requires t in Run(actions).transactions
    requires MayCommit(Run(actions).transactions[t]) && Run(actions).transactions[t].inserted
    ensures var x := Run(actions).transactions[t];
      var l := DoCommit(Run(actions), t).lineages[x.instance.sagaId];
      l.base == x.next && (l.base == 0 <==> !x.sawRow)
  {
    hide TransactionOk, LocksOk, LineageOf, Applied, MayCommit, Run;
    RunInv(actions);
    var s := Run(actions);
    var x := s.transactions[t];
    assert TransactionOf(s, t);
    CommitNumber(s.committed, LockOf(s.locks, x.instance.sagaId), WasDeleted(s.log, x.instance.sagaId), t, x);
  }

  const EXAMPLE := SagaInstance("saga", "type", Obj([]), map[], SagaStatus.Created, 0, 0, map[], None, None)

  function WritesOf(t: TxId): seq<Action> {
    [Upsert(t), ClearAssociations(t), InsertHistory(t)]
  }

  ghost function Follow(s: Server, actions: seq<Action>): Server
    decreases |actions|
  {
    if actions == [] then s else Follow(Step(s, actions[0]), actions[1..])
  }

  lemma {:induction false} FollowSplit(s: Server, first: seq<Action>, rest: seq<Action>)
    ensures Follow(s, first + rest) == Follow(Follow(s, first), rest)
    decreases |first|
  {
    hide Step;
    if first == [] {
      assert first + rest == rest;
    } else {
      assert (first + rest)[1..] == first[1..] + rest;
      FollowSplit(Step(s, first[0]), first[1..], rest);
    }
  }

  lemma {:induction false} RunIsFollow(actions: seq<Action>)
    ensures Run(actions) == Follow(INITIAL, actions)
    decreases |actions|
  {
    hide Step;
    if actions != [] {
      var front, last := actions[..|actions| - 1], actions[|actions| - 1];
      RunIsFollow(front);
      FollowSplit(INITIAL, front, [last]);
      assert front + [last] == actions;
      FollowOne(Run(front), last);
    }
  }

  lemma FollowOne(s: Server, a: Action)
    ensures Follow(s, [a]) == Step(s, a)
  {
    hide Step;
    assert [a][1..] == [];
  }

  /** Waiting in the code between its select, which found no row, and its sequence read. */
  predicate FoundNoRow(s: Server, t: TxId) {
    && t in s.transactions && s.transactions[t].instance == EXAMPLE
    && s.transactions[t].phase.Selected? && s.transactions[t].previous.None?
    && s.transactions[t].newAssociations == map[] && s.transactions[t].written == 0
  }

  predicate AboutToWrite(s: Server, t: TxId) {
    && t in s.transactions && s.transactions[t].instance == EXAMPLE
    && s.transactions[t].phase.Sequenced? && s.transactions[t].previous.None?
    && s.transactions[t].newAssociations == map[] && s.transactions[t].written == 0
    && |s.transactions[t].entries| == 1 && s.transactions[t].entries[0].sagaId == "saga"
  }

  predicate NoRows(s: Server) {
    "saga" !in s.committed.instances && ForeignKeys(s.committed) && "saga" !in s.locks
  }

  lemma BeginAndSelect(s: Server, t: TxId)
    requires NoRows(s) && t !in s.transactions
    ensures var s' := Step(Step(s, Begin(t, EXAMPLE)), Select(t));
      && FoundNoRow(s', t) && NoRows(s') && s'.transactions.Keys == s.transactions.Keys + {t}
      && (forall u <- s.transactions :: s'.transactions[u] == s.transactions[u])
  {
  }

  lemma ReadNumber(s: Server, t: TxId)
    requires FoundNoRow(s, t)
    ensures var s' := Step(s, ReadSequence(t));
      && AboutToWrite(s', t) && s'.transactions[t].sawRow == ("saga" in s.committed.instances)
      && s'.committed == s.committed && s'.locks == s.locks
      && (forall u <- s.transactions :: u != t ==> u in s'.transactions && s'.transactions[u] == s.transactions[u])
  {
    hide NextSequence;
  }

  /** Nothing but transaction t has moved, and what it will write is the same. */
  predicate WritesOn(s: Server, s': Server, t: TxId)
    requires t in s.transactions
  {
    && s'.committed == s.committed && t in s'.transactions
    && (forall u <- s.transactions :: u != t ==> u in s'.transactions && s'.transactions[u] == s.transactions[u])
    && var x, x' := s.transactions[t], s'.transactions[t];
       x'.instance == x.instance && x'.previous == x.previous && x'.sawRow == x.sawRow && x'.entries == x.entries
       && x'.newAssociations == x.newAssociations
  }

  lemma UpsertRow(s: Server, t: TxId)
    requires AboutToWrite(s, t) && NoRows(s)
    ensures var s' := Step(s, Upsert(t));
      WritesOn(s, s', t) && s'.transactions[t].phase.Upserted? && s'.transactions[t].inserted &&
          s'.transactions[t].written == 0
      && s'.locks == s.locks["saga" := t]
  {
  }

  lemma ClearRows(s: Server, t: TxId)
    requires t in s.transactions && s.transactions[t].phase.Upserted? && s.transactions[t].inserted
    requires s.transactions[t].written == 0
    ensures var s' := Step(s, ClearAssociations(t));
      WritesOn(s, s', t) && s'.transactions[t].phase.Cleared? && s'.transactions[t].inserted &&
          s'.transactions[t].written == 0
      && s'.locks == s.locks
  {
    hide KeysOf;
  }

  lemma HistoryRow(s: Server, t: TxId)
    requires t in s.transactions && s.transactions[t].phase.Cleared? && s.transactions[t].inserted
    requires s.transactions[t].written == 0
    requires s.transactions[t].instance == EXAMPLE && s.transactions[t].newAssociations == map[]
    requires |s.transactions[t].entries| == 1 && s.transactions[t].entries[0].sagaId == "saga"
    requires "saga" !in s.committed.instances && ForeignKeys(s.committed)
    ensures var s' := Step(s, InsertHistory(t));
      WritesOn(s, s', t) && s'.transactions[t].inserted && MayCommit(s'.transactions[t]) && s'.locks == s.locks
  {
  }

  lemma FollowThree(s: Server, a: Action, b: Action, c: Action)
    ensures Follow(s, [a, b, c]) == Step(Step(Step(s, a), b), c)
  {
    hide Step;
    assert [a, b, c][1..] == [b, c] && [b, c][1..] == [c];
    FollowOne(Step(Step(s, a), b), c);
  }

  lemma WriteRows(s: Server, t: TxId)
    requires AboutToWrite(s, t) && NoRows(s)
    ensures var s' := Follow(s, WritesOf(t));
      && WritesOn(s, s', t) && MayCommit(s'.transactions[t]) && s'.transactions[t].inserted
      && s'.transactions[t].instance == EXAMPLE && s'.locks == s.locks["saga" := t]
  {
    hide Step, ForeignKeys, MayCommit;
    UpsertRow(s, t);
    var s1 := Step(s, Upsert(t));
    ClearRows(s1, t);
    var s2 := Step(s1, ClearAssociations(t));
    HistoryRow(s2, t);
    FollowThree(s, Upsert(t), ClearAssociations(t), InsertHistory(t));
  }

  lemma CommitRows(s: Server, t: TxId)
    requires t in s.transactions && MayCommit(s.transactions[t]) && s.transactions[t].instance == EXAMPLE
    requires |s.transactions[t].entries| == 1 && s.transactions[t].entries[0].sagaId == "saga"
    requires "saga" in s.locks && s.locks["saga"] == t && ForeignKeys(s.committed)
    ensures var s' := Step(s, Commit(t));
      && "saga" in s'.committed.instances && "saga" !in s'.locks && ForeignKeys(s'.committed)
      && (forall u <- s.transactions :: u != t ==> u in s'.transactions && s'.transactions[u] == s.transactions[u])
  {
    hide MayCommit, Extended, Applied, ForeignKeys;
    AppliedForeignKeys(s.committed, s.transactions[t]);
  }

  lemma AppliedForeignKeys(db: Database, x: Transaction)
    requires ForeignKeys(db) && |x.entries| == 1 && x.entries[0].sagaId == x.instance.sagaId
    ensures ForeignKeys(Applied(db, x)) && x.instance.sagaId in Applied(db, x).instances
  {
    EntryRowsAt(x.entries, x.instance.sagaId, x.entries[0].sequenceNumber);
  }

  lemma RemoveRows(s: Server)
    requires ForeignKeys(s.committed) && "saga" in s.committed.instances && "saga" !in s.locks
    ensures var s' := Step(s, Delete("saga")); NoRows(s') && s'.transactions == s.transactions
  {
    hide SameRows;
    DeletedRows(s.committed, "saga");
  }

  /**
   * Two first saves of one saga and a delete, up to the moment "late" may commit: it read its number before the
   * delete and upserted after it.
   */
  function BeforeLateCommit(): seq<Action> {
    [Begin("late", EXAMPLE), Select("late")]
    + ([Begin("early", EXAMPLE), Select("early")]
    + ([ReadSequence("early")]
    + (WritesOf("early")
    + ([Commit("early")]
    + ([ReadSequence("late")]
    + ([Delete("saga")]
    + WritesOf("late")))))))
  }

  lemma FollowTwo(s: Server, a: Action, b: Action, rest: seq<Action>)
    ensures Follow(s, [a, b] + rest) == Follow(Step(Step(s, a), b), rest)
  {
    hide Step;
    var all := [a, b] + rest;
    assert all[1..] == [b] + rest && ([b] + rest)[1..] == rest;
  }

  lemma FollowNext(s: Server, a: Action, rest: seq<Action>)
    ensures Follow(s, [a] + rest) == Follow(Step(s, a), rest)
  {
    hide Step;
    assert ([a] + rest)[1..] == rest;
  }

  lemma EmptyForeignKeys()
    ensures NoRows(INITIAL)
  {
  }

  lemma LateSaveSawARow()
    ensures var s := Run(BeforeLateCommit());
      && "late" in s.transactions && MayCommit(s.transactions["late"]) && s.transactions["late"].inserted
      && s.transactions["late"].sawRow && s.transactions["late"].instance == EXAMPLE
  {
    hide Step, MayCommit, Follow, ForeignKeys, Run;
    RunIsFollow(BeforeLateCommit());
    var r7 := [Delete("saga")] + WritesOf("late");
    var r6 := [ReadSequence("late")] + r7;
    var r5 := [Commit("early")] + r6;
    var r4 := WritesOf("early") + r5;
    var r3 := [ReadSequence("early")] + r4;
    var r2 := [Begin("early", EXAMPLE), Select("early")] + r3;
    EmptyForeignKeys();
    BeginAndSelect(INITIAL, "late");
    FollowTwo(INITIAL, Begin("late", EXAMPLE), Select("late"), r2);
    var s2 := Step(Step(INITIAL, Begin("late", EXAMPLE)), Select("late"));
    BeginAndSelect(s2, "early");
    FollowTwo(s2, Begin("early", EXAMPLE), Select("early"), r3);
    var s3 := Step(Step(s2, Begin("early", EXAMPLE)), Select("early"));
    ReadNumber(s3, "early");
    FollowNext(s3, ReadSequence("early"), r4);
    var s4 := Step(s3, ReadSequence("early"));
    WriteRows(s4, "early");
    FollowSplit(s4, WritesOf("early"), r5);
    var s5 := Follow(s4, WritesOf("early"));
    CommitRows(s5, "early");
    FollowNext(s5, Commit("early"), r6);
    var s6 := Step(s5, Commit("early"));
    ReadNumber(s6, "late");
    FollowNext(s6, ReadSequence("late"), r7);
    var s7 := Step(s6, ReadSequence("late"));
    RemoveRows(s7);
    FollowNext(s7, Delete("saga"), WritesOf("late"));
    WriteRows(Step(s7, Delete("saga")), "late");
  }

  /**
   * With a delete between a first save's sequence read and its upsert, history numbering need not start at 0:
   * here the only row is not (saga, 0), though the saga has just been created.
   */
  lemma DeleteCanShiftNumbering()
    ensures var db := Run(BeforeLateCommit() + [Commit("late")]).committed;
      && "saga" in db.instances && ("saga", 0) !in db.history
      && exists n :: n > 0 && ("saga", n) in db.history
  {
    hide Step, MayCommit, LineageOf, DoCommit, TransactionsOk, LocksOk;
    LateSaveSawARow();
    var actions := BeforeLateCommit();
    var all := actions + [Commit("late")];
    assert all[..|all| - 1] == actions;
    NumberingStartsAtZeroIff(actions, "late");
    CommitStep(Run(actions), "late");
    assert Run(all) == DoCommit(Run(actions), "late");
    CommitStores(Run(actions), "late");
    RunInv(all);
    ShiftedHistory(Run(all));
  }

  lemma ShiftedHistory(s: Server)
    requires TablesOk(s) && "saga" in s.lineages && s.lineages["saga"].base != 0
    ensures ("saga", 0) !in s.committed.history && exists n :: n > 0 && ("saga", n) in s.committed.history
  {
    hide HistoryOf, ForwardChain, ForeignKeys;
    assert LineageOf(s, "saga");
    var l := s.lineages["saga"];
    HistoryNotEmpty(l.snapshots, l.base);
    assert ("saga", l.base) in s.committed.history;
  }

  lemma CommitStep(s: Server, t: TxId)
    requires t in s.transactions
    ensures Step(s, Commit(t)) == DoCommit(s, t)
  {
    hide DoCommit;
  }

  lemma CommitStores(s: Server, t: TxId)
    requires t in s.transactions && MayCommit(s.transactions[t])
    ensures s.transactions[t].instance.sagaId in DoCommit(s, t).committed.instances
    ensures s.transactions[t].instance.sagaId in DoCommit(s, t).lineages
  {
    hide MayCommit;
  }

  // ----- why a save is rolled back ---------------------------------------------------------------------------

  /**
   * A save is rolled back by its own next statement, for the reason reported: the snapshot read is not followed by this
   * one, the state cannot be stored, the instance was not there when it looked and is now, or a row of the same key is;
   * or else by a failure from outside.
   */
  lemma RolledBackFor(s: Server, a: Action, t: TxId)
    requires t in s.transactions && t in Step(s, a).transactions
    requires !s.transactions[t].phase.RolledBack? && Step(s, a).transactions[t].phase.RolledBack?
    ensures RolledBackBy(s.transactions[t], a, t, Step(s, a).transactions[t].phase.reason)
  {
    hide RolledBackBy, DoSelect, DoLock, DoReadSequence, DoUpsert, DoClearAssociations, DoInsertAssociation,
         DoInsertHistory, DoCommit, DoAbort, RollBack;
    match a
    case Begin(_, _) =>
    case Delete(_) =>
    case SaveContext(_, _) =>
    case _ =>
      if a.tx in s.transactions {
        StatementRollsBack(s, a, t);
      }
  }

  /** What the transaction was about to do, and why it could not. */
  predicate RolledBackBy(x: Transaction, a: Action, t: TxId, reason: Rollback) {
    match reason
    case NotForward => a == ReadSequence(t) && x.previous.Some? && RejectedBy(x.previous.value, x.instance)
    case UnsupportedState => a == Upsert(t) && !Supported(x.instance.state)
    case LostFirstSave => a == ClearAssociations(t) && x.previous.None? && !x.inserted
    case DuplicateKey => a == InsertHistory(t) || (a.InsertAssociation? && a.tx == t)
    case Failure => a == Abort(t)
  }

  lemma ReadSequenceRollsBack(s: Server, t: TxId)
    requires t in s.transactions && !s.transactions[t].phase.RolledBack?
    requires DoReadSequence(s, t).transactions[t].phase.RolledBack?
    ensures RolledBackBy(s.transactions[t], ReadSequence(t), t, DoReadSequence(s, t).transactions[t].phase.reason)
  {
    hide NextSequence, Derived, Forward, RejectedBy, Unlocked;
    RejectedIff(s.transactions[t]);
  }

  lemma UpsertRollsBack(s: Server, t: TxId)
    requires t in s.transactions && !s.transactions[t].phase.RolledBack?
    requires DoUpsert(s, t).transactions[t].phase.RolledBack?
    ensures RolledBackBy(s.transactions[t], Upsert(t), t, DoUpsert(s, t).transactions[t].phase.reason)
  {
    hide Supported, Unlocked, Blocked, RejectedBy;
  }

  lemma ClearAssociationsRollsBack(s: Server, t: TxId)
    requires t in s.transactions && !s.transactions[t].phase.RolledBack?
    requires DoClearAssociations(s, t).transactions[t].phase.RolledBack?
    ensures RolledBackBy(s.transactions[t], ClearAssociations(t), t,
                         DoClearAssociations(s, t).transactions[t].phase.reason)
  {
    hide KeysOf, Unlocked, RejectedBy;
  }

  lemma InsertAssociationRollsBack(s: Server, t: TxId, property: string)
    requires t in s.transactions && !s.transactions[t].phase.RolledBack?
    requires DoInsertAssociation(s, t, property).transactions[t].phase.RolledBack?
    ensures RolledBackBy(s.transactions[t], InsertAssociation(t, property), t,
                         DoInsertAssociation(s, t, property).transactions[t].phase.reason)
  {
    hide Unlocked, RejectedBy;
  }

  lemma InsertHistoryRollsBack(s: Server, t: TxId)
    requires t in s.transactions && !s.transactions[t].phase.RolledBack?
    requires DoInsertHistory(s, t).transactions[t].phase.RolledBack?
    ensures RolledBackBy(s.transactions[t], InsertHistory(t), t, DoInsertHistory(s, t).transactions[t].phase.reason)
  {
    hide Unlocked, RejectedBy;
  }

  lemma AbortRollsBack(s: Server, t: TxId)
    requires t in s.transactions && !s.transactions[t].phase.RolledBack?
    requires DoAbort(s, t).transactions[t].phase.RolledBack?
    ensures RolledBackBy(s.transactions[t], Abort(t), t, DoAbort(s, t).transactions[t].phase.reason)
  {
    hide Unlocked, RejectedBy;
  }

  lemma SelectRollsNothingBack(s: Server, t: TxId)
    requires t in s.transactions && !s.transactions[t].phase.RolledBack?
    ensures !DoSelect(s, t).transactions[t].phase.RolledBack?
  {
    hide RowsOf;
  }

  lemma LockRollsNothingBack(s: Server, t: TxId)
    requires t in s.transactions && !s.transactions[t].phase.RolledBack?
    ensures !DoLock(s, t).transactions[t].phase.RolledBack?
  {
    hide FromRow, Blocked;
  }

  lemma CommitRollsNothingBack(s: Server, t: TxId)
    requires t in s.transactions && !s.transactions[t].phase.RolledBack?
    ensures !DoCommit(s, t).transactions[t].phase.RolledBack?
  {
    hide Applied, Extended, MayCommit, Unlocked;
  }

  lemma CommitKeepsOthers(s: Server, t: TxId, other: TxId)
    requires t in s.transactions && other in s.transactions && other != t
    ensures DoCommit(s, t).transactions[other] == s.transactions[other]
  {
    hide Applied, Extended, MayCommit, Unlocked;
  }

  /** A statement is its own transaction's. */
  lemma OnlyItsOwn(s: Server, a: Action, t: TxId)
    requires !a.Begin? && !a.Delete? && !a.SaveContext? && a.tx in s.transactions && t in s.transactions && t != a.tx
    requires !a.Commit?
    ensures t in TransactionStep(s, a).transactions && TransactionStep(s, a).transactions[t] == s.transactions[t]
  {
    hide TransactionStep;
    TransactionStepLocal(s, a);
  }

  lemma StatementRollsBack(s: Server, a: Action, t: TxId)
    requires !a.Begin? && !a.Delete? && !a.SaveContext? && a.tx in s.transactions
    requires t in s.transactions && t in TransactionStep(s, a).transactions
    requires !s.transactions[t].phase.RolledBack? && TransactionStep(s, a).transactions[t].phase.RolledBack?
    ensures RolledBackBy(s.transactions[t], a, t, TransactionStep(s, a).transactions[t].phase.reason)
  {
    hide RolledBackBy, DoSelect, DoLock, DoReadSequence, DoUpsert, DoClearAssociations, DoInsertAssociation,
         DoInsertHistory, DoCommit, DoAbort;
    if t != a.tx && !a.Commit? {
      OnlyItsOwn(s, a, t);
    }
    match a
    case Select(_) => SelectRollsNothingBack(s, t);
    case Lock(_) => LockRollsNothingBack(s, t);
    case ReadSequence(_) => ReadSequenceRollsBack(s, t);
    case Upsert(_) => UpsertRollsBack(s, t);
    case ClearAssociations(_) => ClearAssociationsRollsBack(s, t);
    case InsertAssociation(_, property) => InsertAssociationRollsBack(s, t, property);
    case InsertHistory(_) => InsertHistoryRollsBack(s, t);
    case Commit(other) =>
      if other != t {
        CommitKeepsOthers(s, other, t);
      } else {
        CommitRollsNothingBack(s, t);
      }
    case Abort(_) => AbortRollsBack(s, t);
  }

  /** A completed step is no longer completed with the same aggregates, or a terminal status was left. */
  predicate RejectedBy(previous: SagaInstance, incoming: SagaInstance) {
    || (exists n <- previous.steps ::
          && previous.steps[n].status == StepStatus.Completed
          && !(n in incoming.steps && incoming.steps[n].status == StepStatus.Completed
               && incoming.steps[n].touched == previous.steps[n].touched))
    || ((previous.status == SagaStatus.Completed || previous.status == SagaStatus.Failed)
        && incoming.status != previous.status)
  }

  lemma RejectedIff(x: Transaction)
    ensures x.previous.Some? ==> (!Forward(x.previous.value, x.instance) <==> RejectedBy(x.previous.value, x.instance))
  {
    if x.previous.Some? {
      var previous, incoming := x.previous.value, x.instance;
      if n :| n in previous.steps && !KeepsCompletion(previous, incoming, n) {
        assert previous.steps[n].status == StepStatus.Completed;
      }
      if n :| n in previous.steps && previous.steps[n].status == StepStatus.Completed
              && !(n in incoming.steps && incoming.steps[n].status == StepStatus.Completed
                   && incoming.steps[n].touched == previous.steps[n].touched) {
        assert !KeepsCompletion(previous, incoming, n);
      }
    }
  }

  /** A context write stores the value under its saga, if that is stored, and nothing else. */
  lemma ContextIsSaved(s: Server, id: SagaId, value: string)
    ensures var s' := Step(s, SaveContext(id, value));
      if id in s.committed.instances
      then s'.committed == s.committed.(contexts := s.committed.contexts[id := value]) else s' == s
  {
  }
}
