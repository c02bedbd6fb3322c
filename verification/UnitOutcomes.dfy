/** What a finished unit of work leaves behind, for arbitrary client code and any number of steps. */
module UnitOutcomes {
  import JsonCodec
  import opened Spi
  import opened LifecycleHistory
  import opened InMemoryStorage
  import opened SagaLifecycle
  import opened AggregateModel
  import opened UnitOfWork
  import opened ClientCode
  import opened UnitGuarantees

  function TriggerEntry(t: Trigger): Pending {
    Pending(t.step, t.event, None)
  }

  /** The invariant of the work loop, for the unit of work of t. */
  predicate Looping<W>(t: Trigger, pre: Stores<W>, u: Unit<W>) {
    LoopOk(EnvOf(t), Opened(t, pre.storage), pre.contexts, BaseInstance(t), TriggerEntry(t), u)
  }

  /**
   * Starting is what a unit of work is rejected for: iff a stored instance of its saga type, neither COMPLETED nor
   * FAILED, has the triggering event's value under the association property of the start step.
   */
  lemma StartRejectedIff(t: Trigger, storage: Instances)
    ensures StartRejected(t, storage) <==>
              && t.existing.None?
              && exists x <- storage ::
                   && x.sagaType == t.model.sagaType && t.step.associationProperty in x.associations
                   && x.associations[t.step.associationProperty] == t.value
                   && x.status != SagaStatus.Completed && x.status != SagaStatus.Failed
  {
    DuplicateIs(storage, t.model.sagaType, t.step.associationProperty, t.value);
  }

  /** The instance a unit of work is about: the one found, or a new one whose only association is the event's value. */
  lemma BaseInstanceIs(t: Trigger)
    ensures t.existing.Some? ==> BaseInstance(t) == t.existing.value
    ensures t.existing.None? ==>
              BaseInstance(t)
              == SagaInstance(t.freshId, t.model.sagaType, JsonCodec.Obj([]),
                              map[t.step.associationProperty := t.value],
                              SagaStatus.Created, t.now, t.now,
                              map n | n in t.model.StepNames() :: StepRecord(StepStatus.NotRun, []), None, None)
    ensures EnvOf(t)
            == Env(t.model, t.routes, BaseInstance(t).sagaId, BaseInstance(t).associations, t.now)
  {
  }

  lemma BaseIsStored(t: Trigger, storage: Instances)
    requires ValidTrigger(t, storage)
    ensures Find(Opened(t, storage), BaseInstance(t).sagaId) == Some(BaseInstance(t))
    ensures BaseInstance(t).Valid() && Active(BaseInstance(t))
  {
    if t.existing.None? {
      FindPut(storage, StartedInstance(t), t.freshId);
    }
  }

  lemma BegunLooping<W>(t: Trigger, pre: Stores<W>)
    requires ValidTrigger(t, pre.storage)
    ensures Looping(t, pre, Begun(t, pre))
  {
    hide Find, Put, ValidModel, StepOf;
    BaseIsStored(t, pre.storage);
    NothingReacting(EnvOf(t));
    assert Progressed(BaseInstance(t), BaseInstance(t), [], false);
    BegunQueue(t, pre);
  }

  lemma BegunQueue<W>(t: Trigger, pre: Stores<W>)
    ensures QueueOk(EnvOf(t), TriggerEntry(t), Begun(t, pre))
  {
    hide Find, Put, BaseInstance;
    NothingReacting(EnvOf(t));
  }

  lemma {:induction false} DrainOk<W>(t: Trigger, oracle: Oracle<W>, pre: Stores<W>, u: Unit<W>, fuel: nat)
    requires Looping(t, pre, u)
    ensures var ran := Drain(EnvOf(t), oracle, u, fuel);
      && (ran.Ran? && ran.thrown.None? ==> Looping(t, pre, ran.unit) && (ran.unit.queue == [] || ran.unit.ended))
      && (ran.Ran? && ran.thrown.Some? ==> ThrownOk(EnvOf(t), pre.contexts, TriggerEntry(t), ran.unit))
    decreases fuel
  {
    hide LoopOk, ThrownOk, RunStep, Opened, BaseInstance, EnvOf;
    if u.queue != [] && !u.ended && fuel > 0 {
      StepRanOk(EnvOf(t), oracle, Opened(t, pre.storage), pre.contexts, BaseInstance(t), TriggerEntry(t), u);
      var after := RunStep(EnvOf(t), oracle, u);
      if after.thrown.None? {
        DrainOk(t, oracle, pre, after.unit, fuel - 1);
      }
    }
  }

  /** The current step is the last one run, or the triggered one before any has. */
  predicate CurrentOk<W>(t: Trigger, u: Unit<W>) {
    u.currentStep == if u.stepsRun == [] then t.step.name else u.stepsRun[|u.stepsRun| - 1]
  }

  lemma {:induction false} DrainCurrent<W>(t: Trigger, oracle: Oracle<W>, u: Unit<W>, fuel: nat)
    requires CurrentOk(t, u)
    ensures var ran := Drain(EnvOf(t), oracle, u, fuel); ran.Ran? ==> CurrentOk(t, ran.unit)
    decreases fuel
  {
    hide EnvOf, RunStep;
    if u.queue != [] && !u.ended && fuel > 0 {
      StepCurrent(EnvOf(t), oracle, u);
      var after := RunStep(EnvOf(t), oracle, u);
      if after.thrown.None? {
        DrainCurrent(t, oracle, after.unit, fuel - 1);
      }
    }
  }

  lemma StepCurrent<W>(env: Env, oracle: Oracle<W>, u: Unit<W>)
    requires u.queue != []
    ensures var after := RunStep(env, oracle, u).unit;
      after.stepsRun == u.stepsRun + [u.queue[0].step.name] && after.currentStep == u.queue[0].step.name
  {
    hide RunCode, RecordStepCompleted, Complete, Extends;
    var polled := Poll(u);
    var code := oracle(env, Observed(polled), u.queue[0].event);
    CodeExtends(env, code, polled);
    ExtendsFrame(env, polled, RunCode(env, code, polled).unit);
  }

  /** The result of a unit of work that ran is what its loop did: its client state, its context writes, its events. */
  lemma ResultOfLoop<W>(t: Trigger, oracle: Oracle<W>, pre: Stores<W>, fuel: nat)
    requires !StartRejected(t, pre.storage) && t.construction.None?
    ensures RunUnit(t, oracle, pre, fuel).Result? <==> Drain(EnvOf(t), oracle, Begun(t, pre), fuel).Ran?
    ensures var r, ran := RunUnit(t, oracle, pre, fuel), Drain(EnvOf(t), oracle, Begun(t, pre), fuel);
      r.Result? ==>
        && ran.Ran? && r.puts == ran.unit.puts && r.stepsRun == ran.unit.stepsRun && r.recorded == ran.unit.recorded
        && r.marks == ran.unit.marks
        && r.stores.contexts == ran.unit.contexts
        && (ran.thrown.Some? ==> !r.committed && r.cause == ran.thrown)
        && (r.committed ==>
              ran.thrown.None? && r.stores.world == ran.unit.world && r.stores.aggregates == Leave(ran.unit.aggregates))
        && (!r.committed ==> r.stores.aggregates == Restored(t.copiers, pre.aggregates, ran.unit.aggregates))
  {
    hide Drain, StartRejected, Begun, Fail, Advance, Undelivered, EnvOf;
  }

  /** A rollback puts the aggregates back as they were iff client code changed none in place that has no copier. */
  lemma RollbackUndoesUnlessChanged<W>(t: Trigger, oracle: Oracle<W>, pre: Stores<W>, fuel: nat)
    requires !StartRejected(t, pre.storage) && t.construction.None?
    ensures var r, ran := RunUnit(t, oracle, pre, fuel), Drain(EnvOf(t), oracle, Begun(t, pre), fuel);
      r.Result? && !r.committed ==>
        && ran.Ran?
        && var states := ran.unit.aggregates.states;
           r.stores.aggregates == pre.aggregates <==>
             forall k <- pre.aggregates ::
               k.0 in t.copiers || Stored(k) !in states || states[Stored(k)] == pre.aggregates[k]
  {
    hide Drain, RunUnit, StartRejected, Begun, EnvOf, Restored;
    var r, ran := RunUnit(t, oracle, pre, fuel), Drain(EnvOf(t), oracle, Begun(t, pre), fuel);
    ResultOfLoop(t, oracle, pre, fuel);
    if r.Result? && !r.committed {
      RestoredIff(t.copiers, pre.aggregates, ran.unit.aggregates);
    }
  }

  /** If client code of that kind is rolled back, the aggregates are as they were. */
  predicate Undone<W>(t: Trigger, oracle: Oracle<W>, pre: Stores<W>, fuel: nat) {
    var r := RunUnit(t, oracle, pre, fuel);
    r.Result? && !r.committed ==> r.stores.aggregates == pre.aggregates
  }

  /**
   * What can be known beforehand: every rollback, whatever the client code did, puts the aggregates back as they were
   * iff the type of every stored aggregate has a copier.
   */
  lemma EveryRollbackUndoesIff<W(!new)>(t: Trigger, pre: Stores<W>, fuel: nat)
    requires !StartRejected(t, pre.storage) && t.construction.None? && fuel > 0
    ensures (forall oracle: Oracle<W> :: Undone(t, oracle, pre, fuel)) <==>
              (forall k <- pre.aggregates :: k.0 in t.copiers)
  {
    hide Undone, StartRejected;
    if forall k <- pre.aggregates :: k.0 in t.copiers {
      forall oracle: Oracle<W> ensures Undone(t, oracle, pre, fuel) {
        CopiedIsUndone(t, oracle, pre, fuel);
      }
    }
    if k :| k in pre.aggregates && k.0 !in t.copiers {
      UncopiedIsNot(t, pre, fuel, k, pre.aggregates[k] + "!");
      assert !Undone(t, ChangesThenThrows(k, pre.aggregates[k] + "!"), pre, fuel);
    }
  }

  lemma CopiedIsUndone<W>(t: Trigger, oracle: Oracle<W>, pre: Stores<W>, fuel: nat)
    requires !StartRejected(t, pre.storage) && t.construction.None?
    requires forall k <- pre.aggregates :: k.0 in t.copiers
    ensures Undone(t, oracle, pre, fuel)
  {
    hide StartRejected, RunUnit, Drain, Begun, EnvOf;
    RollbackUndoesUnlessChanged(t, oracle, pre, fuel);
  }

  /** A step that changes a stored aggregate in place and throws. */
  function ChangesThenThrows<W>(key: Key, state: string): Oracle<W> {
    (env: Env, u: Unit<W>, event: Event) => Code([Effect<W>.Work(ChangesInPlace(key, state))], Throws("thrown"))
  }

  lemma UncopiedIsNot<W>(t: Trigger, pre: Stores<W>, fuel: nat, key: Key, state: string)
    requires !StartRejected(t, pre.storage) && t.construction.None? && fuel > 0
    requires key in pre.aggregates && key.0 !in t.copiers && state != pre.aggregates[key]
    ensures !Undone(t, ChangesThenThrows(key, state), pre, fuel)
  {
    hide StartRejected, RunUnit, RunOps, EnvOf, RunCode, Opened, BaseInstance;
    var oracle, begun := ChangesThenThrows(key, state), Begun(t, pre);
    RollbackUndoesUnlessChanged(t, oracle, pre, fuel);
    ResultOfLoop(t, oracle, pre, fuel);
    ChangedThenThrown(EnvOf(t), Poll(begun), key, state);
    ChangedInPlace(begun.aggregates, key, state);
  }

  lemma ChangedThenThrown<W>(env: Env, u: Unit<W>, key: Key, state: string)
    ensures var code := Code([Effect<W>.Work(ChangesInPlace(key, state))], Throws("thrown"));
      RunCode(env, code, u) ==
        Ending(u.(aggregates := RunOps(u.aggregates, ChangesInPlace(key, state))), Throws("thrown"))
  {
    hide RunOps;
    var work := Effect<W>.Work(ChangesInPlace(key, state));
    var first := RunEffect(env, work, u);
    assert [work][1..] == [] && RunEffects(env, [], first.unit) == After(first.unit, None);
  }

  // ----- atomicity -------------------------------------------------------------------------------------------

  /** The instance a committed unit of work leaves. */
  predicate CommittedInstance(model: SagaModel, base: SagaInstance, final: SagaInstance, stepsRun: seq<StepName>) {
    && stepsRun != []
    && final == base.(steps := final.steps, lastModifiedAt := final.lastModifiedAt, status := final.status,
                      outcome := final.outcome)
    && final.Valid()
    && final.steps.Keys == base.steps.Keys
    && CompletedSteps(final) == CompletedSteps(base) + Elements(stepsRun)
    && (forall n <- base.steps :: n !in stepsRun ==> final.steps[n] == base.steps[n])
    && (forall i :: 0 <= i < |stepsRun| - 1 ==> !IsEndStep(model, stepsRun[i]))
    && if IsEndStep(model, stepsRun[|stepsRun| - 1])
       then final.status == SagaStatus.Completed && final.outcome == Some(stepsRun[|stepsRun| - 1])
       else final.status == SagaStatus.Running && final.outcome.None?
  }

  /** On commit: the instance moved on by exactly the steps run, and no other instance changed. */
  ghost predicate CommittedStores<W>(t: Trigger, pre: Stores<W>, r: Result<W>)
    requires r.Result?
  {
    && r.sagaId == Some(BaseInstance(t).sagaId)
    && SameExcept(Opened(t, pre.storage), r.stores.storage, BaseInstance(t).sagaId)
    && Find(r.stores.storage, BaseInstance(t).sagaId).Some?
    && CommittedInstance(t.model, BaseInstance(t), Find(r.stores.storage, BaseInstance(t).sagaId).value, r.stepsRun)
    && r.stepsRun[0] == t.step.name
    && r.stores.contexts == PutAll(pre.contexts, BaseInstance(t).sagaId, r.puts)
    && r.failure.None? && r.discarded == []
  }

  /**
   * On rollback: every participant is as before, aggregates included if their type has a copier, every context
   * write is kept, and storage differs from before in the saga itself alone, which is FAILED with the failure reported,
   * in its last step, and otherwise as it was but for the modification time; a rejected start changes nothing.
   */
  ghost predicate RolledBackStores<W>(t: Trigger, pre: Stores<W>, r: Result<W>)
    requires r.Result?
  {
    && r.stores.world == pre.world
    && r.stores.aggregates.Keys == pre.aggregates.Keys
    && (forall k <- pre.aggregates :: k.0 in t.copiers ==> r.stores.aggregates[k] == pre.aggregates[k])
    && r.dispatched == []
    && (r.sagaId.None? <==> StartRejected(t, pre.storage))
    && if r.sagaId.None? then
         r.stores == pre && r.stepsRun == [] && r.recorded == [] && r.failure.None? && r.cause == Some(DUPLICATE)
       else
         && r.sagaId == Some(BaseInstance(t).sagaId) && r.cause.Some?
         && r.failure == Some(SagaFailure(if r.stepsRun == [] then t.step.name else r.stepsRun[|r.stepsRun| - 1],
                                          r.cause.value, r.cause.value, t.now))
         && SameExcept(Opened(t, pre.storage), r.stores.storage, BaseInstance(t).sagaId)
         && r.stores.contexts == PutAll(pre.contexts, BaseInstance(t).sagaId, r.puts)
         && var x := BaseInstance(t);
            Find(r.stores.storage, x.sagaId)
            == Some(SagaInstance(x.sagaId, x.sagaType, x.state, x.associations, SagaStatus.Failed, x.createdAt, t.now,
                                 x.steps, None, r.failure))
  }

  lemma FinalInstance(model: SagaModel, base: SagaInstance, current: SagaInstance, stepsRun: seq<StepName>,
                      ended: bool, now: int)
    requires Progressed(base, current, stepsRun, ended) && Active(base) && base.Valid() && stepsRun != []
    requires ended <==> IsEndStep(model, stepsRun[|stepsRun| - 1])
    requires forall i :: 0 <= i < |stepsRun| - 1 ==> !IsEndStep(model, stepsRun[i])
    ensures CommittedInstance(model, base, if ended then current else Advanced(current, now), stepsRun)
  {
    hide IsEndStep;
    var final := if ended then current else Advanced(current, now);
    forall n ensures n in CompletedSteps(final) <==> n in CompletedSteps(base) + Elements(stepsRun) {
    }
  }

  lemma SettledInstance<W>(t: Trigger, pre: Stores<W>, u: Unit<W>)
    requires ValidTrigger(t, pre.storage) && Looping(t, pre, u) && (u.queue == [] || u.ended)
    ensures var settled := Settle(EnvOf(t), u);
      && settled.thrown.None?
      && settled.unit == u.(storage := settled.unit.storage)
      && Commit(t, settled.unit).Result? && Commit(t, settled.unit).committed
      && CommittedStores(t, pre, Commit(t, settled.unit))
  {
    hide Progressed, IsEndStep, SameExcept, Find, Put, CommittedInstance, QueueOk, Opened, ValidModel, ValidTrigger,
         PutAll, Undelivered, BaseInstance;
    var base := BaseInstance(t);
    BaseIsStored(t, pre.storage);
    var current := Find(u.storage, base.sagaId).value;
    SomeStepRan(EnvOf(t), TriggerEntry(t), u);
    FinalInstance(t.model, base, current, u.stepsRun, u.ended, t.now);
    if !u.ended {
      StillActive(base, current, u.stepsRun);
      PutKeepsOthers(Opened(t, pre.storage), u.storage, Advanced(current, t.now));
    }
  }

  lemma SomeStepRan<W>(env: Env, trigger: Pending, u: Unit<W>)
    requires QueueOk(env, trigger, u) && StepsOk(env, trigger.step, u) && (u.queue == [] || u.ended)
    ensures u.stepsRun != []
  {
  }

  lemma RolledBack<W>(t: Trigger, pre: Stores<W>, u: Unit<W>, cause: Cause)
    requires ValidTrigger(t, pre.storage) && !StartRejected(t, pre.storage)
    requires ContextsOk(EnvOf(t), pre.contexts, u) && CurrentOk(t, u)
    ensures RollBack(t, pre, u, cause).Result? && !RollBack(t, pre, u, cause).committed
    ensures RolledBackStores(t, pre, RollBack(t, pre, u, cause))
  {
    hide SameExcept, ValidModel, PutAll, Undelivered, StartRejected, FailureWritten, Opened, Find,
         BaseInstance;
    FailureIsWritten(t, pre.storage, SagaFailure(u.currentStep, cause, cause, t.now));
  }

  /** What a rollback writes is the FAILED base instance, whether it was there before or is re-created. */
  lemma FailureIsWritten(t: Trigger, storage: Instances, failure: SagaFailure)
    requires ValidTrigger(t, storage) && !StartRejected(t, storage)
    ensures var base, failed := BaseInstance(t), FailureWritten(t, storage, failure);
      && SameExcept(Opened(t, storage), failed, base.sagaId)
      && Find(failed, base.sagaId) == Some(FailedWith(base, failure, t.now))
  {
    hide SameExcept, Put, ValidModel, StepOf, StartRejected;
    BaseIsStored(t, storage);
    var base := BaseInstance(t);
    SameAsItself(Opened(t, storage), base.sagaId);
    PutKeepsOthers(Opened(t, storage), Opened(t, storage), FailedWith(base, failure, t.now));
  }

  lemma SameAsItself(s: Instances, id: SagaId)
    ensures SameExcept(s, s, id)
  {
  }

  /** Atomicity, for every client code, every number of steps, every way of failing. */
  lemma Atomicity<W>(t: Trigger, oracle: Oracle<W>, pre: Stores<W>, fuel: nat)
    requires ValidTrigger(t, pre.storage)
    ensures var r := RunUnit(t, oracle, pre, fuel);
      r.Result? ==> if r.committed then CommittedStores(t, pre, r) else RolledBackStores(t, pre, r)
  {
    hide StartRejected, RollBack, Commit, Drain, CommittedStores, RolledBackStores, LoopOk, Settle, EnvOf,
         BaseInstance, ValidTrigger, QueueOk, ContextsOk;
    BegunLooping(t, pre);
    var begun := Begun(t, pre);
    LoopingContexts(t, pre, begun);
    if StartRejected(t, pre.storage) {
      RejectedUnit(t, pre);
    } else {
      if t.construction.Some? {
        RolledBack(t, pre, begun, t.construction.value);
      } else {
        DrainOk(t, oracle, pre, begun, fuel);
        DrainCurrent(t, oracle, begun, fuel);
        var ran := Drain(EnvOf(t), oracle, begun, fuel);
        if ran.Ran? && ran.thrown.None? {
          SettledInstance(t, pre, ran.unit);
        } else if ran.Ran? {
          RolledBack(t, pre, ran.unit, ran.thrown.value);
        }
      }
    }
  }

  lemma RejectedUnit<W>(t: Trigger, pre: Stores<W>)
    requires StartRejected(t, pre.storage)
    ensures RolledBackStores(t, pre, Rejection(pre))
  {
  }

  lemma LoopingContexts<W>(t: Trigger, pre: Stores<W>, u: Unit<W>)
    requires Looping(t, pre, u)
    ensures ContextsOk(EnvOf(t), pre.contexts, u) && QueueOk(EnvOf(t), TriggerEntry(t), u)
  {
  }
}
