/** What a committed unit of work records of the steps it ran: the aggregates of the events each of them recorded. */
module StepRecords {
  import opened Spi
  import opened InMemoryStorage
  import opened SagaLifecycle
  import opened UnitOfWork
  import opened ClientCode
  import opened UnitGuarantees
  import opened UnitOutcomes
  import opened EventConservation

  /** The last time its step ran. */
  predicate LastRun(stepsRun: seq<StepName>, i: nat) {
    i < |stepsRun| && forall j :: i < j < |stepsRun| ==> stepsRun[j] != stepsRun[i]
  }

  predicate MarksOk(marks: seq<nat>, n: nat) {
    && (forall i :: 0 <= i < |marks| ==> marks[i] <= n)
    && (forall i, j :: 0 <= i < j < |marks| ==> marks[i] <= marks[j])
  }

  /** The events recorded during the i-th step invocation. */
  function RecordedIn(recorded: seq<Event>, marks: seq<nat>, i: nat): seq<Event>
    requires MarksOk(marks, |recorded|) && i < |marks|
  {
    recorded[marks[i]..if i + 1 < |marks| then marks[i + 1] else |recorded|]
  }

  predicate AllRecordable(events: seq<Event>) {
    forall i :: 0 <= i < |events| ==> Recordable(events[i])
  }

  lemma RecordableIn(recorded: seq<Event>, marks: seq<nat>, i: nat)
    requires AllRecordable(recorded) && MarksOk(marks, |recorded|) && i < |marks|
    ensures AllRecordable(RecordedIn(recorded, marks, i))
  {
    hide Recordable;
  }

  /** What the i-th step invocation touched, each aggregate once, in recording order. */
  function TouchedIn(recorded: seq<Event>, marks: seq<nat>, i: nat): seq<AggregateReference>
    requires AllRecordable(recorded) && MarksOk(marks, |recorded|) && i < |marks|
  {
    RecordableIn(recorded, marks, i);
    Deduplicated(References(RecordedIn(recorded, marks, i)))
  }

  predicate RunsOk(stepsRun: seq<StepName>, marks: seq<nat>, recorded: seq<Event>) {
    |marks| == |stepsRun| && MarksOk(marks, |recorded|) && AllRecordable(recorded)
  }

  /** Each step run is recorded completed with what its last invocation touched. */
  predicate RecordsOk(stepsRun: seq<StepName>, marks: seq<nat>, recorded: seq<Event>, instance: SagaInstance) {
    && RunsOk(stepsRun, marks, recorded)
    && forall i :: 0 <= i < |stepsRun| && LastRun(stepsRun, i) ==>
         && stepsRun[i] in instance.steps
         && instance.steps[stepsRun[i]] == StepRecord(StepStatus.Completed, TouchedIn(recorded, marks, i))
  }

  /** One more invocation: earlier ones keep the events that were theirs. */
  lemma OneMoreRun(stepsRun: seq<StepName>, marks: seq<nat>, recorded: seq<Event>, before: SagaInstance, name: StepName,
                   recorded': seq<Event>, after: SagaInstance)
    requires RecordsOk(stepsRun, marks, recorded, before)
    requires recorded <= recorded' && AllRecordable(recorded'[|recorded|..])
    requires name in after.steps
    requires after.steps[name] == CompletedStep(References(recorded'[|recorded|..]))
    requires forall n <- before.steps :: n != name ==> n in after.steps && after.steps[n] == before.steps[n]
    ensures RecordsOk(stepsRun + [name], marks + [|recorded|], recorded', after)
  {
    hide Recordable, Deduplicated, References;
    var runs, ms := stepsRun + [name], marks + [|recorded|];
    MoreRuns(stepsRun, marks, recorded, name, recorded');
    forall i | 0 <= i < |runs| && LastRun(runs, i)
      ensures runs[i] in after.steps
      ensures after.steps[runs[i]] == StepRecord(StepStatus.Completed, TouchedIn(recorded', ms, i))
    {
      if i == |stepsRun| {
        assert RecordedIn(recorded', ms, i) == recorded'[|recorded|..];
      } else {
        assert forall j :: i < j < |stepsRun| ==> runs[j] == stepsRun[j];
        assert runs[|stepsRun|] == name && LastRun(stepsRun, i);
        EarlierRun(marks, recorded, recorded', i);
      }
    }
  }

  lemma MoreRuns(stepsRun: seq<StepName>, marks: seq<nat>, recorded: seq<Event>, name: StepName, recorded': seq<Event>)
    requires RunsOk(stepsRun, marks, recorded) && recorded <= recorded' && AllRecordable(recorded'[|recorded|..])
    ensures RunsOk(stepsRun + [name], marks + [|recorded|], recorded')
  {
    hide Recordable;
    forall i | 0 <= i < |recorded'| ensures Recordable(recorded'[i]) {
      if i < |recorded| {
        assert recorded'[i] == recorded[i];
      } else {
        assert recorded'[i] == recorded'[|recorded|..][i - |recorded|];
      }
    }
  }

  lemma EarlierRun(marks: seq<nat>, recorded: seq<Event>, recorded': seq<Event>, i: nat)
    requires MarksOk(marks, |recorded|) && recorded <= recorded' && i < |marks|
    ensures MarksOk(marks + [|recorded|], |recorded'|)
    ensures RecordedIn(recorded', marks + [|recorded|], i) == RecordedIn(recorded, marks, i)
  {
  }

  // ----- through the work loop -------------------------------------------------------------------------------

  /** A pass changes the record of its own step only. */
  lemma OtherStepsKept<W>(env: Env, oracle: Oracle<W>, u: Unit<W>)
    requires u.queue != [] && RunStep(env, oracle, u).thrown.None? && Find(u.storage, env.sagaId).Some?
    ensures var after, name := RunStep(env, oracle, u).unit, u.queue[0].step.name;
      && Find(after.storage, env.sagaId).Some?
      && after.stepsRun == u.stepsRun + [name] && after.marks == u.marks + [|u.recorded|]
      && forall n <- Find(u.storage, env.sagaId).value.steps :: n != name ==>
           && n in Find(after.storage, env.sagaId).value.steps
           && Find(after.storage, env.sagaId).value.steps[n] == Find(u.storage, env.sagaId).value.steps[n]
  {
    hide RunCode, Extends, CompleteStep;
    var polled := Poll(u);
    var code := oracle(env, Observed(polled), u.queue[0].event);
    CodeExtends(env, code, polled);
    var ran := RunCode(env, code, polled).unit;
    ExtendsFrame(env, polled, ran);
    CompleteStepFrame(env, u.queue[0].step, ran);
    CompletionKeeps(env, u.queue[0].step, ran);
  }

  lemma CompletionKeeps<W>(env: Env, step: Step, ran: Unit<W>)
    requires CompleteStep(env, step, ran).thrown.None? && Find(ran.storage, env.sagaId).Some?
    ensures var before, found :=
        Find(ran.storage, env.sagaId).value, Find(CompleteStep(env, step, ran).unit.storage, env.sagaId);
      && found.Some?
      && forall n <- before.steps :: n != ran.currentStep ==>
            n in found.value.steps && found.value.steps[n] == before.steps[n]
  {
    hide Put, Deduplicated;
    var current := Find(ran.storage, env.sagaId).value;
    var recorded := WithStep(current, ran.currentStep, ran.touched, env.now);
    FindPut(ran.storage, recorded, env.sagaId);
    FindPut(Put(ran.storage, recorded), CompletedAt(recorded, ran.currentStep, env.now), env.sagaId);
  }

  predicate Recording<W>(env: Env, u: Unit<W>) {
    Find(u.storage, env.sagaId).Some? && RecordsOk(u.stepsRun, u.marks, u.recorded, Find(u.storage, env.sagaId).value)
  }

  lemma PassRecords<W>(env: Env, oracle: Oracle<W>, u: Unit<W>)
    requires u.queue != [] && RunStep(env, oracle, u).thrown.None? && Recording(env, u)
    ensures Recording(env, RunStep(env, oracle, u).unit)
  {
    hide RunStep, Find, RecordsOk, References, Deduplicated, Recordable;
    StepTouches(env, oracle, u);
    OtherStepsKept(env, oracle, u);
    var after, name := RunStep(env, oracle, u).unit, u.queue[0].step.name;
    var tail := after.recorded[|u.recorded|..];
    forall i | 0 <= i < |tail| ensures Recordable(tail[i]) {
      assert tail[i] == after.recorded[|u.recorded| + i];
    }
    OneMoreRun(u.stepsRun, u.marks, u.recorded, Find(u.storage, env.sagaId).value, name, after.recorded,
               Find(after.storage, env.sagaId).value);
  }

  lemma {:induction false} DrainRecords<W>(env: Env, oracle: Oracle<W>, u: Unit<W>, fuel: nat)
    requires Recording(env, u)
    ensures var ran := Drain(env, oracle, u, fuel); ran.Ran? && ran.thrown.None? ==> Recording(env, ran.unit)
    decreases fuel
  {
    hide RunStep, Recording;
    if u.queue != [] && !u.ended && fuel > 0 && RunStep(env, oracle, u).thrown.None? {
      PassRecords(env, oracle, u);
      DrainRecords(env, oracle, RunStep(env, oracle, u).unit, fuel - 1);
    }
  }

  lemma BegunRecords<W>(t: Trigger, pre: Stores<W>)
    requires ValidTrigger(t, pre.storage)
    ensures Recording(EnvOf(t), Begun(t, pre))
  {
    hide Find, Put, ValidModel, StepOf;
    BaseIsStored(t, pre.storage);
  }

  /** The saga's wait changes no step record. */
  lemma SettleRecords<W>(env: Env, u: Unit<W>)
    requires Recording(env, u) && Settle(env, u).thrown.None?
    ensures Recording(env, Settle(env, u).unit)
  {
    hide Put, LastRun, TouchedIn, RunsOk;
    if !u.ended {
      FindPut(u.storage, Advanced(Find(u.storage, env.sagaId).value, env.now), env.sagaId);
    }
  }

  /**
   * In what a unit of work commits, each step it ran is recorded with the deduplicated aggregates of the events
   * recorded during its last invocation.
   */
  lemma CommittedRecords<W>(t: Trigger, oracle: Oracle<W>, pre: Stores<W>, fuel: nat)
    requires ValidTrigger(t, pre.storage)
    ensures var r := RunUnit(t, oracle, pre, fuel);
      r.Result? && r.committed ==>
        && Find(r.stores.storage, BaseInstance(t).sagaId).Some?
        && RecordsOk(r.stepsRun, r.marks, r.recorded, Find(r.stores.storage, BaseInstance(t).sagaId).value)
  {
    hide Drain, RollBack, Begun, StartRejected, Recording, Settle, Undelivered, ValidTrigger, RecordsOk, Find;
    BegunRecords(t, pre);
    DrainRecords(EnvOf(t), oracle, Begun(t, pre), fuel);
    var ran := Drain(EnvOf(t), oracle, Begun(t, pre), fuel);
    NeverCommits(t, pre);
    if ran.Ran? && ran.thrown.None? {
      if Settle(EnvOf(t), ran.unit).thrown.None? {
        SettleRecords(EnvOf(t), ran.unit);
        RecordingMeans(EnvOf(t), Settle(EnvOf(t), ran.unit).unit);
      }
    }
  }

  lemma RecordingMeans<W>(env: Env, u: Unit<W>)
    requires Recording(env, u)
    ensures Find(u.storage, env.sagaId).Some?
    ensures RecordsOk(u.stepsRun, u.marks, u.recorded, Find(u.storage, env.sagaId).value)
  {
  }

  lemma NeverCommits<W>(t: Trigger, pre: Stores<W>)
    ensures forall u: Unit<W>, cause :: RollBack(t, pre, u, cause).Result? && !RollBack(t, pre, u, cause).committed
  {
  }

  // ----- all that a commit leaves of the instance ------------------------------------------------------------

  /** Once a step has run, the stored instance was last modified now. */
  predicate Stamped<W>(env: Env, u: Unit<W>) {
    && Find(u.storage, env.sagaId).Some?
    && (u.stepsRun != [] ==> Find(u.storage, env.sagaId).value.lastModifiedAt == env.now)
  }

  lemma PassStamps<W>(env: Env, oracle: Oracle<W>, u: Unit<W>)
    requires u.queue != [] && RunStep(env, oracle, u).thrown.None? && Find(u.storage, env.sagaId).Some?
    ensures Stamped(env, RunStep(env, oracle, u).unit)
  {
    hide RunCode, Extends, CompleteStep, Find;
    var polled := Poll(u);
    var code := oracle(env, Observed(polled), u.queue[0].event);
    CodeExtends(env, code, polled);
    var ran := RunCode(env, code, polled).unit;
    ExtendsFrame(env, polled, ran);
    CompletionStamps(env, u.queue[0].step, ran);
  }

  lemma CompletionStamps<W>(env: Env, step: Step, ran: Unit<W>)
    requires CompleteStep(env, step, ran).thrown.None? && Find(ran.storage, env.sagaId).Some?
    ensures var found := Find(CompleteStep(env, step, ran).unit.storage, env.sagaId);
      found.Some? && found.value.lastModifiedAt == env.now
  {
    hide RecordStepCompleted, Complete, Find;
    StepRecordedIs(ran.storage, env.sagaId, ran.currentStep, ran.touched, env.now);
    var recorded := RecordStepCompleted(ran.storage, env.sagaId, ran.currentStep, ran.touched, env.now);
    if recorded.Some? {
      CompletedIs(recorded.value, env.sagaId, ran.currentStep, env.now);
    }
  }

  lemma {:induction false} DrainStamps<W>(env: Env, oracle: Oracle<W>, u: Unit<W>, fuel: nat)
    requires Stamped(env, u)
    ensures var ran := Drain(env, oracle, u, fuel); ran.Ran? && ran.thrown.None? ==> Stamped(env, ran.unit)
    decreases fuel
  {
    hide RunStep, Find;
    if u.queue != [] && !u.ended && fuel > 0 && RunStep(env, oracle, u).thrown.None? {
      PassStamps(env, oracle, u);
      DrainStamps(env, oracle, RunStep(env, oracle, u).unit, fuel - 1);
    }
  }

  lemma SettleStamps<W>(env: Env, u: Unit<W>)
    requires Stamped(env, u) && Settle(env, u).thrown.None?
    ensures Stamped(env, Settle(env, u).unit)
  {
    hide Advance, Find;
    AdvancedIs(u.storage, env.sagaId, env.now);
  }

  lemma CommittedStamp<W>(t: Trigger, oracle: Oracle<W>, pre: Stores<W>, fuel: nat)
    requires ValidTrigger(t, pre.storage)
    ensures var r := RunUnit(t, oracle, pre, fuel);
      r.Result? && r.committed && r.stepsRun != [] ==>
        && Find(r.stores.storage, BaseInstance(t).sagaId).Some?
        && Find(r.stores.storage, BaseInstance(t).sagaId).value.lastModifiedAt == t.now
  {
    hide Drain, RollBack, StartRejected, Settle, Undelivered, ValidTrigger, Find, BaseInstance;
    BaseIsStored(t, pre.storage);
    DrainStamps(EnvOf(t), oracle, Begun(t, pre), fuel);
    var ran := Drain(EnvOf(t), oracle, Begun(t, pre), fuel);
    NeverCommits(t, pre);
    if ran.Ran? && ran.thrown.None? {
      if Settle(EnvOf(t), ran.unit).thrown.None? {
        SettleStamps(EnvOf(t), ran.unit);
      }
    }
  }

  /**
   * What a commit leaves, field by field: what identifies the saga, its state and associations are as they were; it was
   * modified now; each step run is completed with what its last invocation touched, every other is as it was; and it is
   * COMPLETED with the last step as outcome if that is an end step, and RUNNING otherwise.
   */
  lemma CommittedIs<W>(t: Trigger, oracle: Oracle<W>, pre: Stores<W>, fuel: nat)
    requires ValidTrigger(t, pre.storage)
    ensures var r, base := RunUnit(t, oracle, pre, fuel), BaseInstance(t);
      r.Result? && r.committed ==>
        && RunsOk(r.stepsRun, r.marks, r.recorded) && r.stepsRun != []
        && Find(r.stores.storage, base.sagaId).Some?
        && var left, last := Find(r.stores.storage, base.sagaId).value, r.stepsRun[|r.stepsRun| - 1];
           && left.sagaId == base.sagaId && left.sagaType == base.sagaType && left.state == base.state
           && left.associations == base.associations && left.createdAt == base.createdAt
           && left.lastModifiedAt == t.now
           && left.steps.Keys == base.steps.Keys
           && (forall n <- base.steps :: n !in r.stepsRun ==> left.steps[n] == base.steps[n])
           && (forall i :: 0 <= i < |r.stepsRun| && LastRun(r.stepsRun, i) ==>
                 && r.stepsRun[i] in left.steps
                 && left.steps[r.stepsRun[i]]
                    == StepRecord(StepStatus.Completed, TouchedIn(r.recorded, r.marks, i)))
           && left.failure.None?
           && (if exists c <- t.model.steps :: t.model.steps[c].name == last && t.model.steps[c].end
               then left.status == SagaStatus.Completed && left.outcome == Some(last)
               else left.status == SagaStatus.Running && left.outcome.None?)
  {
    hide RunUnit, Find, BaseInstance, ValidTrigger, TouchedIn, RunsOk, LastRun, SameExcept, PutAll;
    Atomicity(t, oracle, pre, fuel);
    CommittedRecords(t, oracle, pre, fuel);
    CommittedStamp(t, oracle, pre, fuel);
    BaseIsStored(t, pre.storage);
  }
}
