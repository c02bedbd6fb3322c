/**
 * Where the engine and the storage meet: the snapshots units of work leave against the forward check of a save,
 * and the two storage providers against each other.
 */
module EngineAndStorage {
  import opened JsonCodec
  import opened Spi
  import opened Ordering
  import opened LifecycleHistory
  import opened InMemoryStorage
  import opened SagaLifecycle
  import opened Tables
  import opened PostgresStorage
  import opened UnitOfWork
  import opened ClientCode
  import opened UnitGuarantees
  import opened UnitOutcomes
  import opened EventConservation
  import opened StepRecords

  // ----- the forward check -----------------------------------------------------------------------------------

  /**
   * An already completed step ran again and, the last time, recorded events of other aggregates, or in another order,
   * than it is recorded with.
   */
  predicate RanElsewhere<W>(base: SagaInstance, r: Result<W>, i: nat)
    requires r.Result? && RunsOk(r.stepsRun, r.marks, r.recorded)
  {
    && LastRun(r.stepsRun, i) && base.HasCompleted(r.stepsRun[i])
    && TouchedIn(r.recorded, r.marks, i) != base.steps[r.stepsRun[i]].touched
  }

  /** What a commit leaves is a forward transition iff no step that was already completed ran elsewhere. */
  lemma CommittedForwardIff<W>(t: Trigger, oracle: Oracle<W>, pre: Stores<W>, fuel: nat)
    requires ValidTrigger(t, pre.storage)
    ensures var r, base := RunUnit(t, oracle, pre, fuel), BaseInstance(t);
      r.Result? && r.committed ==>
        && RunsOk(r.stepsRun, r.marks, r.recorded) && Find(r.stores.storage, base.sagaId).Some?
        && (Forward(base, Find(r.stores.storage, base.sagaId).value) <==>
              forall i :: 0 <= i < |r.stepsRun| ==> !RanElsewhere(base, r, i))
  {
    hide RunUnit, Find, SameExcept, BaseInstance, ValidTrigger, CommittedInstance, Forward, RanElsewhere, TouchedIn,
         RunsOk, LastRun;
    Atomicity(t, oracle, pre, fuel);
    CommittedRecords(t, oracle, pre, fuel);
    BaseIsStored(t, pre.storage);
    var r, base := RunUnit(t, oracle, pre, fuel), BaseInstance(t);
    if r.Result? && r.committed {
      ForwardIff(t.model, base, Find(r.stores.storage, base.sagaId).value, r);
    }
  }

  lemma ForwardIff<W>(model: SagaModel, base: SagaInstance, final: SagaInstance, r: Result<W>)
    requires r.Result? && CommittedInstance(model, base, final, r.stepsRun) && Active(base)
    requires RecordsOk(r.stepsRun, r.marks, r.recorded, final)
    ensures Forward(base, final) <==> forall i :: 0 <= i < |r.stepsRun| ==> !RanElsewhere(base, r, i)
  {
    hide IsEndStep, TouchedIn, RunsOk;
    if forall i :: 0 <= i < |r.stepsRun| ==> !RanElsewhere(base, r, i) {
      forall n | n in base.steps ensures KeepsCompletion(base, final, n) {
        if base.HasCompleted(n) && n in r.stepsRun {
          var i := LastOf(r.stepsRun, n);
          assert !RanElsewhere(base, r, i);
        }
      }
    }
    if i :| 0 <= i < |r.stepsRun| && RanElsewhere(base, r, i) {
      assert !KeepsCompletion(base, final, r.stepsRun[i]);
    }
  }

  lemma {:induction false} LastOf(stepsRun: seq<StepName>, n: StepName) returns (i: nat)
    requires n in stepsRun
    ensures LastRun(stepsRun, i) && stepsRun[i] == n
  {
    var k := |stepsRun| - 1;
    if stepsRun[k] == n {
      i := k;
    } else {
      assert stepsRun == stepsRun[..k] + [stepsRun[k]];
      i := LastOf(stepsRun[..k], n);
      assert forall j :: i < j < k ==> stepsRun[j] == stepsRun[..k][j];
    }
  }

  /** What a rollback leaves is always a forward transition: the records the saga had, and FAILED. */
  lemma FailedForward(base: SagaInstance, failure: SagaFailure, now: int)
    requires Active(base)
    ensures Forward(base, FailedWith(base, failure, now))
  {
    forall n | n in base.steps ensures KeepsCompletion(base, FailedWith(base, failure, now), n) {
    }
  }

  /**
   * Run against the tables, the snapshot a unit of work leaves passes the storage's checks if the one before did,
   * unless a step completed before ran again elsewhere; and it is a record the constructor accepts.
   */
  lemma SnapshotAccepted<W>(t: Trigger, oracle: Oracle<W>, pre: Stores<W>, fuel: nat, db: Database)
    requires ValidTrigger(t, pre.storage) && Supported(BaseInstance(t).state)
    requires Load(db, BaseInstance(t).sagaId) == Find(pre.storage, BaseInstance(t).sagaId)
    ensures var r, id := RunUnit(t, oracle, pre, fuel), BaseInstance(t).sagaId;
      r.Result? && r.sagaId.Some? ==>
        && Find(r.stores.storage, id).Some?
        && var left := Find(r.stores.storage, id).value;
           && left.Valid()
           && (r.committed ==> RunsOk(r.stepsRun, r.marks, r.recorded))
           && (Accepted(db, left) <==>
                 (r.committed && t.existing.Some? ==> forall i :: 0 <= i < |r.stepsRun| ==>
                     !RanElsewhere(BaseInstance(t), r, i)))
  {
    hide Load, RunUnit, Find, StartRejected, SameExcept, Opened, Forward, BaseInstance, StepOf, ValidModel, Supported,
         CommittedInstance, RanElsewhere, RunsOk;
    Atomicity(t, oracle, pre, fuel);
    CommittedForwardIff(t, oracle, pre, fuel);
    var r, base := RunUnit(t, oracle, pre, fuel), BaseInstance(t);
    LoadedFirst(t, pre.storage, db);
    BaseIsStored(t, pre.storage);
    if r.Result? && r.sagaId.Some? {
      if r.committed {
        CommittedRecord(t.model, base, Find(r.stores.storage, base.sagaId).value, r.stepsRun);
      } else {
        FailedForward(base, r.failure.value, t.now);
      }
    }
  }

  lemma CommittedRecord(model: SagaModel, base: SagaInstance, final: SagaInstance, stepsRun: seq<StepName>)
    requires CommittedInstance(model, base, final, stepsRun)
    ensures final.Valid() && final.sagaId == base.sagaId && final.state == base.state
  {
  }

  /** An existing instance is the one the tables hold; a started one is not in them yet. */
  lemma LoadedFirst(t: Trigger, storage: Instances, db: Database)
    requires ValidTrigger(t, storage)
    requires Load(db, BaseInstance(t).sagaId) == Find(storage, BaseInstance(t).sagaId)
    ensures if t.existing.Some? then Load(db, BaseInstance(t).sagaId) == Some(BaseInstance(t))
            else BaseInstance(t).sagaId !in db.instances
    ensures BaseInstance(t).sagaId in db.instances <==> Load(db, BaseInstance(t).sagaId).Some?
  {
    hide RowsOf, ValidModel, StepOf;
  }

  // ----- a committed unit of work the forward check refuses --------------------------------------------------

  const AGAIN := Step("s", "E", "p", false, false)
  const AGAIN_SAGA := SagaModel("type", map[AGAIN.eventClass := AGAIN])

  /** Waiting, with step s completed on aggregate (A, 1). */
  const WAITING := SagaInstance("id", "type", Obj([]), map["p" := "v"], SagaStatus.Running, 0, 0,
                                map[AGAIN.name := StepRecord(StepStatus.Completed, [AggregateReference("A", "1")])],
                                    None, None)

  const TRIGGERS_AGAIN := Event("E", true, "A", Some("1"), map["p" := ReadsAs("v")])
  const ELSEWHERE := Event("X", true, "B", Some("2"), map[])
  const AGAIN_TRIGGER := Trigger(AGAIN_SAGA, map[], AGAIN, TRIGGERS_AGAIN, Some(WAITING), "v", "unused", 1, None, {})
  const BEFORE: Stores<string> := Stores([WAITING], map[], "", map[])

  /** This time the step records an event of aggregate (B, 2). */
  function RecordsElsewhere(): Oracle<string> {
    (env: Env, u: Unit<string>, event: Event) => Code([Effect<string>.Record(ELSEWHERE, false)], Returns)
  }

  lemma RecordOnly<W>(env: Env, event: Event, u: Unit<W>)
    requires Recordable(event) && !AccessorThrows(env, event)
    ensures var effects := [Effect<W>.Record(event, false)];
      && RunEffects(env, effects, u) == RecordEvent(env, event, u)
      && !FailureInEffects(env, effects, u, MarkingFailure)
  {
    var record := Effect<W>.Record(event, false);
    var first := RunEffect(env, record, u);
    assert [record][1..] == [] && first == RecordEvent(env, event, u) && first.thrown.None?;
    assert RunEffects(env, [], first.unit) == After(first.unit, None);
    assert !FailureInEffects(env, [], first.unit, MarkingFailure);
  }

  lemma ElsewhereRuns(env: Env, u: Unit<string>)
    ensures var code := Code([Effect<string>.Record(ELSEWHERE, false)], Returns);
      && RunCode(env, code, u) == Ending(RecordEvent(env, ELSEWHERE, u).unit, Returns)
      && !FailureInCode(env, code, u, MarkingFailure)
  {
    hide RunEffects, FailureInEffects;
    RecordOnly(env, ELSEWHERE, u);
  }

  lemma ElsewhereRecorded(u: Unit<string>)
    requires u.recorded == [] && u.queue == []
    ensures var v := RecordEvent(EnvOf(AGAIN_TRIGGER), ELSEWHERE, u).unit;
      && v == u.(touched := v.touched, recorded := [ELSEWHERE])
  {
  }

  lemma AgainCompletes(env: Env, u: Unit<string>)
    requires env == EnvOf(AGAIN_TRIGGER) && u.storage == [WAITING] && u.currentStep == AGAIN.name
    ensures CompleteStep(env, AGAIN, u).thrown.None?
  {
    assert Find([WAITING], WAITING.sagaId) == Some(WAITING);
  }

  lemma AgainRuns(u: Unit<string>)
    requires u.queue == [Pending(AGAIN, TRIGGERS_AGAIN, None)] && !u.ended && u.rollbackOnly.None?
    requires u.storage == [WAITING]
    requires u.stepsRun == [] && u.marks == [] && u.recorded == []
    ensures var env := EnvOf(AGAIN_TRIGGER);
      var after := RunStep(env, RecordsElsewhere(), u);
      && after.thrown.None? && after.unit.queue == [] && !after.unit.ended
      && after.unit.stepsRun == [AGAIN.name] && after.unit.marks == [0] && after.unit.recorded == [ELSEWHERE]
      && CleanStep(env, RecordsElsewhere(), u)
  {
    hide RunCode, FailureInCode, RecordStepCompleted, Complete, RecordEvent, EnvOf;
    var env := EnvOf(AGAIN_TRIGGER);
    var polled := Poll(u);
    assert RecordsElsewhere()(env, Observed(polled), TRIGGERS_AGAIN) ==
        Code([Effect<string>.Record(ELSEWHERE, false)], Returns);
    ElsewhereRuns(env, polled);
    ElsewhereRecorded(polled);
    var ran := RecordEvent(env, ELSEWHERE, polled).unit;
    AgainCompletes(env, ran);
    CompleteStepFrame(env, AGAIN, ran);
  }

  lemma AgainDrains()
    ensures var env, u := EnvOf(AGAIN_TRIGGER), Begun(AGAIN_TRIGGER, BEFORE);
      && CleanRun(env, RecordsElsewhere(), u, 1)
      && var ran := Drain(env, RecordsElsewhere(), u, 1);
         && ran.Ran? && ran.thrown.None?
         && ran.unit.stepsRun == [AGAIN.name] && ran.unit.marks == [0] && ran.unit.recorded == [ELSEWHERE]
  {
    hide RunStep, CleanStep, EnvOf;
    var env, u := EnvOf(AGAIN_TRIGGER), Begun(AGAIN_TRIGGER, BEFORE);
    AgainRuns(u);
    var after := RunStep(env, RecordsElsewhere(), u);
    assert CleanRun(env, RecordsElsewhere(), after.unit, 0);
    assert Drain(env, RecordsElsewhere(), after.unit, 0) == Ran(after.unit, None);
  }

  lemma AgainIsValid()
    ensures ValidTrigger(AGAIN_TRIGGER, BEFORE.storage) && BaseInstance(AGAIN_TRIGGER) == WAITING
    ensures !StartRejected(AGAIN_TRIGGER, BEFORE.storage) && AGAIN_TRIGGER.model.StepNames() <= WAITING.steps.Keys
  {
  }

  /** It commits, and leaves a snapshot that loses what the step was completed with. */
  lemma RunningElsewhereIsNotForward()
    ensures ValidTrigger(AGAIN_TRIGGER, BEFORE.storage)
    ensures var r := RunUnit(AGAIN_TRIGGER, RecordsElsewhere(), BEFORE, 1);
      && r.Result? && r.committed && RunsOk(r.stepsRun, r.marks, r.recorded) && RanElsewhere(WAITING, r, 0)
      && Find(r.stores.storage, WAITING.sagaId).Some?
      && !Forward(WAITING, Find(r.stores.storage, WAITING.sagaId).value)
  {
    hide Begun, RunUnit, Forward, Drain, CleanRun, EnvOf, BaseInstance, ValidTrigger, StartRejected, Find, RunsOk,
         TouchedIn;
    var t := AGAIN_TRIGGER;
    AgainIsValid();
    AgainDrains();
    CommitsIffClean(t, RecordsElsewhere(), BEFORE, 1);
    ResultOfLoop(t, RecordsElsewhere(), BEFORE, 1);
    CommittedForwardIff(t, RecordsElsewhere(), BEFORE, 1);
    TouchesElsewhere();
  }

  lemma TouchesElsewhere()
    ensures RunsOk([AGAIN.name], [0], [ELSEWHERE])
    ensures TouchedIn([ELSEWHERE], [0], 0) == [AggregateReference("B", "2")]
  {
    hide Deduplicated, NoDuplicates;
    assert RecordedIn([ELSEWHERE], [0], 0) == [ELSEWHERE];
    assert References([ELSEWHERE]) == [AggregateReference("B", "2")];
    OneIsDeduplicated(AggregateReference("B", "2"));
  }

  lemma OneIsDeduplicated(a: AggregateReference)
    ensures Deduplicated([a]) == [a]
  {
    DeduplicatedIdentity([a]);
  }

  // ----- one storage contract, two providers -----------------------------------------------------------------

  /** A save keeps the providers alike, whatever the number its history starts from. */
  lemma SavesAlike(s: Instances, db: Database, instance: SagaInstance, next: int)
    requires DistinctIds(s) && Contents(db) == ById(s)
    ensures DistinctIds(Put(s, instance)) && Contents(Written(db, instance, next)) == ById(Put(s, instance))
  {
    hide Find, Written, Load, ById;
    PutDistinct(s, instance);
    ContentsWritten(db, instance, next);
    var m := ById(s)[instance.sagaId := instance];
    forall id ensures Find(Put(s, instance), id) == if id in m then Some(m[id]) else None {
      FindPut(s, instance, id);
    }
    ByIdIsFind(Put(s, instance), m);
  }

  lemma FindCons(first: SagaInstance, rest: Instances, id: SagaId)
    ensures Find([first] + rest, id) == if first.sagaId == id then Some(first) else Find(rest, id)
  {
    assert ([first] + rest)[1..] == rest;
  }

  lemma {:induction false} FindRemove(s: Instances, id: SagaId, other: SagaId)
    ensures Find(Remove(s, id), other) == if other == id then None else Find(s, other)
  {
    if s != [] {
      FindRemove(s[1..], id, other);
      var tail := Remove(s[1..], id);
      if s[0].sagaId == id {
        assert Remove(s, id) == [] + tail == tail;
      } else {
        FindCons(s[0], tail, other);
        FindCons(s[0], s[1..], other);
        assert s == [s[0]] + s[1..];
      }
    }
  }

  lemma {:induction false} RemoveDistinct(s: Instances, id: SagaId)
    requires DistinctIds(s)
    ensures DistinctIds(Remove(s, id)) && forall x :: x in Remove(s, id) ==> x in s
  {
    if s != [] {
      RemoveDistinct(s[1..], id);
      assert forall x :: x in s[1..] ==> x.sagaId != s[0].sagaId;
    }
  }

  lemma DeletesAlike(s: Instances, db: Database, id: SagaId)
    requires DistinctIds(s) && ForeignKeys(db) && Contents(db) == ById(s)
    ensures DistinctIds(Remove(s, id)) && Contents(Deleted(db, id)) == ById(Remove(s, id))
  {
    hide Find, Deleted, Load, ById;
    RemoveDistinct(s, id);
    ContentsDeleted(db, id);
    var m := ById(s) - {id};
    forall other ensures Find(Remove(s, id), other) == if other in m then Some(m[other]) else None {
      FindRemove(s, id, other);
    }
    ByIdIsFind(Remove(s, id), m);
  }

  /** The index lookup over the tables finds the same instances as the full scan over the instances in memory. */
  lemma LookupsAlike(s: Instances, db: Database, property: string, value: string, found: seq<SagaInstance>)
    requires DistinctIds(s) && Contents(db) == ById(s) && AnswersLookup(found, db, property, value)
    ensures multiset(found) == multiset(Matching(s, property, value))
  {
    hide Load, ById, Matching, Contents;
    var scanned := Matching(s, property, value);
    forall x ensures x in found <==> x in scanned {
      ContentsAt(db, x.sagaId);
      if x in scanned {
        var i :| 0 <= i < |s| && s[i] == x;
        FindUnique(s, i);
        assert x.sagaId in Contents(db) && Contents(db)[x.sagaId] == x;
      }
    }
    MatchingDistinct(s, property, value);
    FoundDistinct(found, db, property, value);
    SameElements(found, scanned);
  }

  lemma ContentsAt(db: Database, id: SagaId)
    ensures id in Contents(db) <==> id in db.instances
    ensures id in Contents(db) <==> Load(db, id).Some?
    ensures id in Contents(db) ==> Contents(db)[id] == Load(db, id).value
  {
  }

  lemma FoundDistinct(found: seq<SagaInstance>, db: Database, property: string, value: string)
    requires AnswersLookup(found, db, property, value)
    ensures NoDuplicates(found)
  {
    hide Load;
    forall i, j | 0 <= i < j < |found| ensures found[i] != found[j] {
      assert Less(found[i].sagaId, found[j].sagaId);
      LessTotal(found[i].sagaId, found[j].sagaId);
    }
  }
}
