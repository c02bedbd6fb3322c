/** HarnessSagaLifecycle: every transition reads the stored instance, copies it changed, and saves it back. */
module SagaLifecycle {
  import opened JsonCodec
  import opened Spi
  import opened InMemoryStorage

  predicate Active(instance: SagaInstance) {
    !Terminal(instance.status)
  }

  predicate Competes(instance: SagaInstance, sagaType: string) {
    instance.sagaType == sagaType && Active(instance)
  }

  predicate HasDuplicate(s: Instances, sagaType: string, property: string, value: string) {
    exists x <- Matching(s, property, value) :: Competes(x, sagaType)
  }

  function CreatedInstance(id: SagaId, sagaType: string, steps: set<StepName>, property: string, value: string,
                           now: int): SagaInstance {
    SagaInstance(id, sagaType, Obj([]), map[property := value], SagaStatus.Created, now, now,
                 map n | n in steps :: NOT_RUN, None, None)
  }

  /** The stored instance, if it may still change. */
  function ActiveInstance(s: Instances, id: SagaId): Option<SagaInstance> {
    var found := Find(s, id);
    if found.Some? && Active(found.value) then found else None
  }

  function WithStep(current: SagaInstance, step: StepName, touched: seq<AggregateReference>, now: int): SagaInstance {
    current.(steps := current.steps[step := CompletedStep(touched)], lastModifiedAt := now, outcome := None,
             failure := None)
  }

  function Advanced(current: SagaInstance, now: int): SagaInstance {
    current.(status := SagaStatus.Running, lastModifiedAt := now, outcome := None, failure := None)
  }

  function CompletedAt(current: SagaInstance, outcome: StepName, now: int): SagaInstance {
    current.(status := SagaStatus.Completed, lastModifiedAt := now, outcome := Some(outcome), failure := None)
  }

  function FailedWith(current: SagaInstance, failure: SagaFailure, now: int): SagaInstance {
    current.(status := SagaStatus.Failed, lastModifiedAt := now, outcome := None, failure := Some(failure))
  }

  // ----- transitions on the stored instances; None where the lifecycle throws --------------------------------

  function Start(s: Instances, id: SagaId, sagaType: string, steps: set<StepName>, property: string, value: string,
                 now: int): Option<Instances> {
    if HasDuplicate(s, sagaType, property, value) then None
    else Some(Put(s, CreatedInstance(id, sagaType, steps, property, value, now)))
  }

  function RecordStepCompleted(s: Instances, id: SagaId, step: StepName, touched: seq<AggregateReference>,
                               now: int): Option<Instances> {
    var current := ActiveInstance(s, id);
    if current.None? || step !in current.value.steps then None
    else Some(Put(s, WithStep(current.value, step, touched, now)))
  }

  function Advance(s: Instances, id: SagaId, now: int): Option<Instances> {
    var current := ActiveInstance(s, id);
    if current.None? then None else Some(Put(s, Advanced(current.value, now)))
  }

  function Complete(s: Instances, id: SagaId, outcome: StepName, now: int): Option<Instances> {
    var current := ActiveInstance(s, id);
    if current.None? then None else Some(Put(s, CompletedAt(current.value, outcome, now)))
  }

  function Fail(s: Instances, id: SagaId, failure: SagaFailure, now: int): Option<Instances> {
    var current := ActiveInstance(s, id);
    if current.None? then None else Some(Put(s, FailedWith(current.value, failure, now)))
  }

  // ----- what the transitions come to ------------------------------------------------------------------------

  /**
   * A start is rejected iff some stored instance has that saga type and that association value and is neither
   * COMPLETED nor FAILED; otherwise exactly one instance, with no step run yet, is stored under the id.
   */
  lemma StartIs(s: Instances, id: SagaId, sagaType: string, steps: set<StepName>, property: string, value: string,
                now: int)
    ensures var after := Start(s, id, sagaType, steps, property, value, now);
      && (after.None? <==>
            exists x <- s :: x.sagaType == sagaType && property in x.associations && x.associations[property] == value
                             && x.status != SagaStatus.Completed && x.status != SagaStatus.Failed)
      && (after.Some? ==>
            && Find(after.value, id)
               == Some(SagaInstance(id, sagaType, Obj([]), map[property := value], SagaStatus.Created, now, now,
                                    map n | n in steps :: StepRecord(StepStatus.NotRun, []), None, None))
            && forall other | other != id :: Find(after.value, other) == Find(s, other))
  {
    hide Find, Put;
    var created := CreatedInstance(id, sagaType, steps, property, value, now);
    DuplicateIs(s, sagaType, property, value);
    forall other ensures Find(Put(s, created), other) == if other == id then Some(created) else Find(s, other) {
      FindPut(s, created, other);
    }
  }

  lemma DuplicateIs(s: Instances, sagaType: string, property: string, value: string)
    ensures HasDuplicate(s, sagaType, property, value) <==>
              exists x <- s :: x.sagaType == sagaType && property in x.associations && x.associations[property] == value
                               && x.status != SagaStatus.Completed && x.status != SagaStatus.Failed
  {
    if x :| x in s && x.sagaType == sagaType && property in x.associations && x.associations[property] == value
            && x.status != SagaStatus.Completed && x.status != SagaStatus.Failed {
      assert x in Matching(s, property, value);
    }
  }

  /** The stored instance is there, and neither COMPLETED nor FAILED. */
  lemma ActiveIs(s: Instances, id: SagaId)
    ensures var found := Find(s, id);
      ActiveInstance(s, id) ==
        if found.Some? && found.value.status != SagaStatus.Completed && found.value.status != SagaStatus.Failed
        then found else None
  {
    hide Find;
  }

  /** Completing a known step of such an instance changes that step's record and the modification time. */
  lemma StepRecordedIs(s: Instances, id: SagaId, step: StepName, touched: seq<AggregateReference>, now: int)
    ensures var after, found := RecordStepCompleted(s, id, step, touched, now), Find(s, id);
      && (after.Some? <==>
            && found.Some? && found.value.status != SagaStatus.Completed && found.value.status != SagaStatus.Failed
            && step in found.value.steps)
      && (after.Some? ==>
            && SameExcept(s, after.value, id)
            && var x := found.value;
               Find(after.value, id)
               == Some(SagaInstance(x.sagaId, x.sagaType, x.state, x.associations, x.status, x.createdAt, now,
                                    x.steps[step := StepRecord(StepStatus.Completed, Deduplicated(touched))], None,
                                    None)))
  {
    hide Find, Put, SameExcept;
    ActiveIs(s, id);
    var found := Find(s, id);
    if found.Some? {
      Replaced(s, WithStep(found.value, step, touched, now));
    }
  }

  /** At a wait point the instance becomes RUNNING. */
  lemma AdvancedIs(s: Instances, id: SagaId, now: int)
    ensures var after, found := Advance(s, id, now), Find(s, id);
      && (after.Some? <==>
            found.Some? && found.value.status != SagaStatus.Completed && found.value.status != SagaStatus.Failed)
      && (after.Some? ==>
            && SameExcept(s, after.value, id)
            && var x := found.value;
               Find(after.value, id)
               == Some(SagaInstance(x.sagaId, x.sagaType, x.state, x.associations, SagaStatus.Running, x.createdAt, now,
                                    x.steps, None, None)))
  {
    hide Find, Put, SameExcept;
    ActiveIs(s, id);
    var found := Find(s, id);
    if found.Some? {
      Replaced(s, Advanced(found.value, now));
    }
  }

  /** At an end step it becomes COMPLETED, with that step as the outcome. */
  lemma CompletedIs(s: Instances, id: SagaId, outcome: StepName, now: int)
    ensures var after, found := Complete(s, id, outcome, now), Find(s, id);
      && (after.Some? <==>
            found.Some? && found.value.status != SagaStatus.Completed && found.value.status != SagaStatus.Failed)
      && (after.Some? ==>
            && SameExcept(s, after.value, id)
            && var x := found.value;
               Find(after.value, id)
               == Some(SagaInstance(x.sagaId, x.sagaType, x.state, x.associations, SagaStatus.Completed, x.createdAt,
                                    now, x.steps, Some(outcome), None)))
  {
    hide Find, Put, SameExcept;
    ActiveIs(s, id);
    var found := Find(s, id);
    if found.Some? {
      Replaced(s, CompletedAt(found.value, outcome, now));
    }
  }

  /** A failure makes it FAILED, with that very failure. */
  lemma FailedIs(s: Instances, id: SagaId, failure: SagaFailure, now: int)
    ensures var after, found := Fail(s, id, failure, now), Find(s, id);
      && (after.Some? <==>
            found.Some? && found.value.status != SagaStatus.Completed && found.value.status != SagaStatus.Failed)
      && (after.Some? ==>
            && SameExcept(s, after.value, id)
            && var x := found.value;
               Find(after.value, id)
               == Some(SagaInstance(x.sagaId, x.sagaType, x.state, x.associations, SagaStatus.Failed, x.createdAt, now,
                                    x.steps, None, Some(failure))))
  {
    hide Find, Put, SameExcept;
    ActiveIs(s, id);
    var found := Find(s, id);
    if found.Some? {
      Replaced(s, FailedWith(found.value, failure, now));
    }
  }

  lemma Replaced(s: Instances, x: SagaInstance)
    requires Find(s, x.sagaId).Some?
    ensures Find(Put(s, x), x.sagaId) == Some(x) && SameExcept(s, Put(s, x), x.sagaId)
  {
    FindPut(s, x, x.sagaId);
    PutInPlace(s, x);
  }

  // ----- the object ------------------------------------------------------------------------------------------

  class HarnessSagaLifecycle {
    const storage: InMemoryStorageProvider
    const clock: int

    constructor (storage: InMemoryStorageProvider, clock: int)
      ensures this.storage == storage && this.clock == clock
    {
      this.storage := storage;
      this.clock := clock;
    }

    method StartSaga(id: SagaId, sagaType: string, steps: set<StepName>, property: string, value: string)
      returns (created: Option<SagaInstance>)
      modifies storage
      ensures created.Some? <==> Start(old(storage.instances), id, sagaType, steps, property, value, clock).Some?
      ensures created.Some? ==>
                && created.value == CreatedInstance(id, sagaType, steps, property, value, clock)
                && Some(storage.instances) == Start(old(storage.instances), id, sagaType, steps, property, value, clock)
      ensures created.None? ==> storage.instances == old(storage.instances)
      ensures created.None? <==>
                exists x <- old(storage.instances) ::
                  && x.sagaType == sagaType && property in x.associations && x.associations[property] == value
                  && x.status != SagaStatus.Completed && x.status != SagaStatus.Failed
      ensures created.Some? ==>
                created.value
                == SagaInstance(id, sagaType, Obj([]), map[property := value], SagaStatus.Created, clock, clock,
                                map n | n in steps :: StepRecord(StepStatus.NotRun, []), None, None)
    {
      StartIs(storage.instances, id, sagaType, steps, property, value, clock);
      var matches := storage.FindByAssociation(property, value);
      for i := 0 to |matches|
        invariant forall j :: 0 <= j < i ==> !Competes(matches[j], sagaType)
      {
        if Competes(matches[i], sagaType) {
          assert matches[i] in matches;
          return None;
        }
      }
      created := Some(CreatedInstance(id, sagaType, steps, property, value, clock));
      storage.Save(created.value);
    }

    method RequireActive(id: SagaId) returns (current: Option<SagaInstance>)
      ensures current == ActiveInstance(storage.instances, id)
      ensures var found := Find(storage.instances, id);
        current == if found.Some? && found.value.status != SagaStatus.Completed
                      && found.value.status != SagaStatus.Failed then found else None
    {
      ActiveIs(storage.instances, id);
      current := storage.FindById(id);
      if current.Some? && Terminal(current.value.status) {
        current := None;
      }
    }

    method StepCompleted(id: SagaId, step: StepName, touched: seq<AggregateReference>) returns (ok: bool)
      modifies storage
      ensures var after := RecordStepCompleted(old(storage.instances), id, step, touched, clock);
              ok == after.Some? && storage.instances == if ok then after.value else old(storage.instances)
      ensures var found := Find(old(storage.instances), id);
        && (ok <==> found.Some? && found.value.status != SagaStatus.Completed
                    && found.value.status != SagaStatus.Failed && step in found.value.steps)
        && (ok ==> var x := found.value;
             Find(storage.instances, id)
             == Some(SagaInstance(x.sagaId, x.sagaType, x.state, x.associations, x.status, x.createdAt, clock,
                                  x.steps[step := StepRecord(StepStatus.Completed, Deduplicated(touched))], None,
                                  None)))
    {
      StepRecordedIs(storage.instances, id, step, touched, clock);
      var current := RequireActive(id);
      ok := current.Some? && step in current.value.steps;
      if ok {
        storage.Save(WithStep(current.value, step, touched, clock));
      }
    }

    method AdvanceSaga(id: SagaId) returns (ok: bool)
      modifies storage
      ensures var after := Advance(old(storage.instances), id, clock);
              ok == after.Some? && storage.instances == if ok then after.value else old(storage.instances)
      ensures var found := Find(old(storage.instances), id);
        && (ok <==> found.Some? && found.value.status != SagaStatus.Completed
                    && found.value.status != SagaStatus.Failed)
        && (ok ==> var x := found.value;
             Find(storage.instances, id)
             == Some(SagaInstance(x.sagaId, x.sagaType, x.state, x.associations, SagaStatus.Running, x.createdAt, clock,
                                  x.steps, None, None)))
    {
      AdvancedIs(storage.instances, id, clock);
      var current := RequireActive(id);
      ok := current.Some?;
      if ok {
        storage.Save(Advanced(current.value, clock));
      }
    }

    method CompleteSaga(id: SagaId, outcome: StepName) returns (ok: bool)
      modifies storage
      ensures var after := Complete(old(storage.instances), id, outcome, clock);
              ok == after.Some? && storage.instances == if ok then after.value else old(storage.instances)
      ensures var found := Find(old(storage.instances), id);
        && (ok <==> found.Some? && found.value.status != SagaStatus.Completed
                    && found.value.status != SagaStatus.Failed)
        && (ok ==> var x := found.value;
             Find(storage.instances, id)
             == Some(SagaInstance(x.sagaId, x.sagaType, x.state, x.associations, SagaStatus.Completed, x.createdAt,
                                  clock, x.steps, Some(outcome), None)))
    {
      CompletedIs(storage.instances, id, outcome, clock);
      var current := RequireActive(id);
      ok := current.Some?;
      if ok {
        storage.Save(CompletedAt(current.value, outcome, clock));
      }
    }

    method FailSaga(id: SagaId, failure: SagaFailure) returns (ok: bool)
      modifies storage
      ensures var after := Fail(old(storage.instances), id, failure, clock);
              ok == after.Some? && storage.instances == if ok then after.value else old(storage.instances)
      ensures var found := Find(old(storage.instances), id);
        && (ok <==> found.Some? && found.value.status != SagaStatus.Completed
                    && found.value.status != SagaStatus.Failed)
        && (ok ==> var x := found.value;
             Find(storage.instances, id)
             == Some(SagaInstance(x.sagaId, x.sagaType, x.state, x.associations, SagaStatus.Failed, x.createdAt, clock,
                                  x.steps, None, Some(failure))))
    {
      FailedIs(storage.instances, id, failure, clock);
      var current := RequireActive(id);
      ok := current.Some?;
      if ok {
        storage.Save(FailedWith(current.value, failure, clock));
      }
    }
  }
}
