/** What every finished unit of work leaves, for arbitrary client code: atomicity and event conservation. */
module UnitGuarantees {
  import opened Spi
  import opened LifecycleHistory
  import opened InMemoryStorage
  import opened SagaLifecycle
  import opened UnitOfWork
  import opened ClientCode

  // ----- assumptions on the caller ---------------------------------------------------------------------------

  /** Step names are distinct and keyed by their event class. */
  predicate ValidModel(model: SagaModel) {
    && (forall c <- model.steps :: model.steps[c].eventClass == c)
    && (forall c <- model.steps, d <- model.steps :: model.steps[c].name == model.steps[d].name ==> c == d)
  }

  predicate StepOf(model: SagaModel, step: Step) {
    step.eventClass in model.steps && model.steps[step.eventClass] == step
  }

  /** What the harness passes: a step of the saga, and a stored, active instance or a fresh id. */
  predicate ValidTrigger(t: Trigger, storage: Instances) {
    && ValidModel(t.model) && StepOf(t.model, t.step)
    && (t.existing.Some? ==> Active(t.existing.value) && t.existing.value.Valid()
                             && Find(storage, t.existing.value.sagaId) == t.existing)
    && (t.existing.None? ==> Find(storage, t.freshId).None?)
  }

  predicate IsEndStep(model: SagaModel, name: StepName) {
    exists c <- model.steps :: model.steps[c].name == name && model.steps[c].end
  }

  lemma EndStepByName(model: SagaModel, step: Step)
    requires ValidModel(model) && StepOf(model, step)
    ensures IsEndStep(model, step.name) <==> step.end
  {
  }

  // ----- what the work loop keeps: the instance --------------------------------------------------------------

  function Elements(names: seq<StepName>): set<StepName> {
    set n | n in names
  }

  /** The instance differs from base in the completed steps run, and in its status only once an end step is reached. */
  predicate Progressed(base: SagaInstance, current: SagaInstance, stepsRun: seq<StepName>, ended: bool) {
    && current == base.(steps := current.steps, lastModifiedAt := current.lastModifiedAt, status := current.status,
                        outcome := current.outcome, failure := current.failure)
    && current.Valid()
    && current.steps.Keys == base.steps.Keys
    && (forall n <- base.steps :: n !in stepsRun ==> current.steps[n] == base.steps[n])
    && (forall n :: n in stepsRun ==> current.HasCompleted(n))
    && (!ended ==> current.status == base.status)
    && (ended ==>
          && stepsRun != [] && current.status == SagaStatus.Completed
          && current.outcome == Some(stepsRun[|stepsRun| - 1]))
  }

  predicate InstanceOk<W>(env: Env, before: Instances, base: SagaInstance, u: Unit<W>) {
    && base.sagaId == env.sagaId && Active(base)
    && SameExcept(before, u.storage, env.sagaId)
    && Find(u.storage, env.sagaId).Some?
    && Progressed(base, Find(u.storage, env.sagaId).value, u.stepsRun, u.ended)
  }

  /** The steps run end, if at all, with an end step; the current one is the last, or the triggered one before any. */
  predicate StepsOk<W>(env: Env, triggered: Step, u: Unit<W>) {
    && (u.ended <==> u.stepsRun != [] && IsEndStep(env.model, u.stepsRun[|u.stepsRun| - 1]))
    && (forall i :: 0 <= i < |u.stepsRun| - 1 ==> !IsEndStep(env.model, u.stepsRun[i]))
    && (u.stepsRun != [] ==> u.stepsRun[0] == triggered.name)
  }

  lemma PutKeepsOthers(before: Instances, s: Instances, instance: SagaInstance)
    requires SameExcept(before, s, instance.sagaId) && Find(s, instance.sagaId).Some?
    ensures SameExcept(before, Put(s, instance), instance.sagaId)
    ensures Find(Put(s, instance), instance.sagaId) == Some(instance)
  {
    PutInPlace(s, instance);
    FindPut(s, instance, instance.sagaId);
  }

  /** Completing a step: the recorded step joins the steps run. */
  lemma CompleteStepInstance<W>(env: Env, before: Instances, base: SagaInstance, step: Step, u: Unit<W>,
                                ran: seq<StepName>)
    requires base.sagaId == env.sagaId && Active(base) && SameExcept(before, u.storage, env.sagaId)
    requires Find(u.storage, env.sagaId).Some? && Progressed(base, Find(u.storage, env.sagaId).value, ran, false)
    requires u.stepsRun == ran + [u.currentStep] && !u.ended
    ensures CompleteStep(env, step, u).thrown.None? ==> InstanceOk(env, before, base, CompleteStep(env, step, u).unit)
    ensures CompleteStep(env, step, u).thrown.None? ==> CompleteStep(env, step, u).unit.ended == step.end
  {
    hide Progressed, SameExcept, WithStep, CompletedAt, Find, Put;
    var current := Find(u.storage, env.sagaId).value;
    StillActive(base, current, ran);
    if u.currentStep in current.steps {
      var recorded := WithStep(current, u.currentStep, u.touched, env.now);
      var completed := CompletedAt(recorded, u.currentStep, env.now);
      ProgressedByStep(base, current, ran, u.currentStep, u.touched, env.now);
      PutKeepsOthers(before, u.storage, recorded);
      PutKeepsOthers(before, Put(u.storage, recorded), completed);
    }
  }

  lemma StillActive(base: SagaInstance, current: SagaInstance, ran: seq<StepName>)
    requires Progressed(base, current, ran, false) && Active(base)
    ensures Active(current) && current.sagaId == base.sagaId
  {
  }

  lemma ProgressedByStep(base: SagaInstance, current: SagaInstance, ran: seq<StepName>, step: StepName,
                         touched: seq<AggregateReference>, now: int)
    requires Progressed(base, current, ran, false) && Active(base) && step in current.steps
    ensures Progressed(base, WithStep(current, step, touched, now), ran + [step], false)
    ensures Progressed(base, CompletedAt(WithStep(current, step, touched, now), step, now), ran + [step], true)
    ensures WithStep(current, step, touched, now).sagaId == base.sagaId
    ensures CompletedAt(WithStep(current, step, touched, now), step, now).sagaId == base.sagaId
    ensures Active(WithStep(current, step, touched, now))
  {
  }

  // ----- what the work loop keeps: the queue -----------------------------------------------------------------

  /** Every reacting event recorded so far, in recording order. */
  function Reacting(env: Env, recorded: seq<Event>): (r: seq<Pending>) {
    PendingFrom(env, recorded, 0)
  }

  /** A queue entry is made from a reacting recorded event and its step. */
  predicate PendingOf(env: Env, recorded: seq<Event>, p: Pending) {
    && p.recorded.Some? && p.recorded.value < |recorded| && p.event == recorded[p.recorded.value]
    && Reacts(env, p.event) && p.step == env.model.steps[p.event.className]
  }

  /** Every entry of pending is made from an event recorded at its place, the first one no earlier than from. */
  predicate AllPending(env: Env, recorded: seq<Event>, pending: seq<Pending>, from: nat) {
    && (forall i :: 0 <= i < |pending| ==> PendingOf(env, recorded, pending[i]))
    && (forall i :: 0 <= i < |pending| ==> pending[i].recorded.Some? && from <= pending[i].recorded.value)
    && (forall i, j :: 0 <= i < j < |pending| ==> pending[i].recorded.value < pending[j].recorded.value)
  }

  lemma AllPendingCons(env: Env, recorded: seq<Event>, first: Pending, rest: seq<Pending>, from: nat)
    requires AllPending(env, recorded, rest, from + 1) && PendingOf(env, recorded, first)
    requires first.recorded == Some(from)
    ensures AllPending(env, recorded, [first] + rest, from)
  {
    hide PendingOf;
    var r := [first] + rest;
    forall i | 0 <= i < |r|
      ensures PendingOf(env, recorded, r[i]) && r[i].recorded.Some? && from <= r[i].recorded.value
    {
      if i > 0 {
        assert r[i] == rest[i - 1];
        assert PendingOf(env, recorded, rest[i - 1]);
      }
    }
    forall i, j | 0 <= i < j < |r| ensures r[i].recorded.value < r[j].recorded.value {
      assert r[j] == rest[j - 1];
      if i > 0 {
        assert r[i] == rest[i - 1];
      }
    }
  }

  lemma NonePending(env: Env, recorded: seq<Event>, from: nat)
    ensures AllPending(env, recorded, [], from)
  {
  }

  lemma AllPendingEarlier(env: Env, recorded: seq<Event>, rest: seq<Pending>, from: nat)
    requires AllPending(env, recorded, rest, from + 1)
    ensures AllPending(env, recorded, rest, from)
  {
  }

  function EntryOf(env: Env, recorded: seq<Event>, at: nat): (p: Pending)
    requires at < |recorded| && Reacts(env, recorded[at])
    ensures PendingOf(env, recorded, p) && p.recorded == Some(at)
  {
    Pending(env.model.steps[recorded[at].className], recorded[at], Some(at))
  }

  lemma {:induction false} PendingFromOk(env: Env, recorded: seq<Event>, from: nat)
    requires from <= |recorded|
    ensures AllPending(env, recorded, PendingFrom(env, recorded, from), from)
    decreases |recorded| - from
  {
    hide AllPending, Reacts;
    if from < |recorded| {
      PendingFromOk(env, recorded, from + 1);
      var rest := PendingFrom(env, recorded, from + 1);
      if Reacts(env, recorded[from]) {
        var first := EntryOf(env, recorded, from);
        AllPendingCons(env, recorded, first, rest, from);
        assert PendingFrom(env, recorded, from) == [first] + rest;
      } else {
        assert PendingFrom(env, recorded, from) == rest;
        AllPendingEarlier(env, recorded, rest, from);
      }
    } else {
      NonePending(env, recorded, from);
    }
  }

  /**
   * First in, first out: the reacting events delivered in-process, in delivery order, then those still queued,
   * are the reacting recorded events in recording order; the triggering event comes before them all.
   */
  predicate QueueOk<W>(env: Env, trigger: Pending, u: Unit<W>) {
    var all := Reacting(env, u.recorded);
    var k := |u.inProcess|;
    && k <= |all|
    && (forall i :: 0 <= i < k ==> all[i].recorded == Some(u.inProcess[i]))
    && u.queue == (if u.stepsRun == [] then [trigger] else []) + all[k..]
    && (u.stepsRun == [] ==> u.recorded == [] && k == 0)
  }

  lemma PendingAt(env: Env, recorded: seq<Event>, k: nat)
    requires k < |Reacting(env, recorded)|
    ensures PendingOf(env, recorded, Reacting(env, recorded)[k]) && Reacting(env, recorded)[k].recorded.Some?
  {
    hide PendingFrom, Reacts;
    PendingFromOk(env, recorded, 0);
  }

  lemma PollQueue<W>(env: Env, trigger: Pending, u: Unit<W>)
    requires QueueOk(env, trigger, u) && u.queue != [] && trigger.recorded.None?
    ensures QueueOk(env, trigger, Poll(u))
    ensures if u.stepsRun == [] then u.queue[0] == trigger else PendingOf(env, u.recorded, u.queue[0])
  {
    hide Reacting, PendingOf;
    NothingReacting(env);
    if u.stepsRun != [] {
      PollNext(env, trigger, u);
    }
  }

  lemma PollNext<W>(env: Env, trigger: Pending, u: Unit<W>)
    requires QueueOk(env, trigger, u) && u.queue != [] && u.stepsRun != []
    ensures QueueOk(env, trigger, Poll(u)) && PendingOf(env, u.recorded, u.queue[0])
  {
    hide Reacting, PendingOf;
    var all, k := Reacting(env, u.recorded), |u.inProcess|;
    FirstOfRest(all, k, u.queue);
    PendingAt(env, u.recorded, k);
  }

  lemma FirstOfRest(all: seq<Pending>, k: nat, queue: seq<Pending>)
    requires k <= |all| && queue == [] + all[k..] && queue != []
    ensures k < |all| && queue[0] == all[k] && queue[1..] == [] + all[k + 1..]
  {
  }

  lemma NothingReacting(env: Env)
    ensures Reacting(env, []) == []
  {
  }

  lemma ExtendsQueue<W>(env: Env, trigger: Pending, u: Unit<W>, u': Unit<W>)
    requires QueueOk(env, trigger, u) && Extends(env, u, u') && u.stepsRun != []
    ensures QueueOk(env, trigger, u')
  {
    PendingFromPrefix(env, u.recorded, u'.recorded, 0);
    var all, all' := Reacting(env, u.recorded), Reacting(env, u'.recorded);
    assert forall i :: 0 <= i < |all| ==> all'[i] == all[i];
    assert all'[|u.inProcess|..] == all[|u.inProcess|..] + PendingFrom(env, u'.recorded, |u.recorded|);
  }

  // ----- one step --------------------------------------------------------------------------------------------

  predicate ContextsOk<W>(env: Env, contexts: Contexts, u: Unit<W>) {
    u.contexts == PutAll(contexts, env.sagaId, u.puts)
  }

  /** What holds of the unit of work whenever it is between two steps, or has just stopped. */
  predicate LoopOk<W>(env: Env, before: Instances, contexts: Contexts, base: SagaInstance, trigger: Pending,
                      u: Unit<W>) {
    && ValidModel(env.model) && StepOf(env.model, trigger.step) && trigger.recorded.None?
    && InstanceOk(env, before, base, u)
    && StepsOk(env, trigger.step, u)
    && QueueOk(env, trigger, u)
    && ContextsOk(env, contexts, u)
    && u.rollbackOnly.None?
  }

  /** What holds of the unit of work when a step has just thrown. */
  predicate ThrownOk<W>(env: Env, contexts: Contexts, trigger: Pending, u: Unit<W>) {
    QueueOk(env, trigger, u) && ContextsOk(env, contexts, u)
  }

  lemma ExtendsContexts<W>(env: Env, contexts: Contexts, u: Unit<W>, u': Unit<W>)
    requires ContextsOk(env, contexts, u) && Extends(env, u, u')
    ensures ContextsOk(env, contexts, u')
  {
    PutAllSplit(contexts, env.sagaId, u.puts, u'.puts[|u.puts|..]);
    assert u'.puts == u.puts + u'.puts[|u.puts|..];
  }

  lemma CompleteStepFrame<W>(env: Env, step: Step, u: Unit<W>)
    ensures var v := CompleteStep(env, step, u).unit;
      && v.recorded == u.recorded && v.queue == u.queue && v.inProcess == u.inProcess && v.stepsRun == u.stepsRun
      && v.marks == u.marks && v.aggregates == u.aggregates && v.contexts == u.contexts && v.puts == u.puts &&
            v.rollbackOnly == u.rollbackOnly && v.world == u.world
  {
  }

  lemma StepRanOk<W>(env: Env, oracle: Oracle<W>, before: Instances, contexts: Contexts, base: SagaInstance,
                     trigger: Pending, u: Unit<W>)
    requires LoopOk(env, before, contexts, base, trigger, u) && u.queue != [] && !u.ended
    ensures var after := RunStep(env, oracle, u);
      && (after.thrown.None? ==> LoopOk(env, before, contexts, base, trigger, after.unit))
      && (after.thrown.Some? ==> ThrownOk(env, contexts, trigger, after.unit))
  {
    hide RunCode, Extends, QueueOk, ContextsOk, CompleteStep, InstanceOk, IsEndStep, ValidModel, PendingOf;
    var next, polled := u.queue[0], Poll(u);
    var ran := RunCode(env, oracle(env, Observed(polled), next.event), polled).unit;
    PollQueue(env, trigger, u);
    CodeExtends(env, oracle(env, Observed(polled), next.event), polled);
    ExtendsQueue(env, trigger, polled, ran);
    PolledContexts(env, contexts, u);
    ExtendsContexts(env, contexts, polled, ran);
    CompleteStepFrame(env, next.step, ran);
    SameQueue(env, trigger, ran, CompleteStep(env, next.step, ran).unit);
    SameContexts(env, contexts, ran, CompleteStep(env, next.step, ran).unit);
    StepInstance(env, oracle, before, base, u);
    NextStepOf(env, trigger, u);
    ExtendsFrame(env, polled, ran);
    EndStepByName(env.model, next.step);
  }

  lemma ExtendsFrame<W>(env: Env, u: Unit<W>, u': Unit<W>)
    requires Extends(env, u, u')
    ensures u'.storage == u.storage && u'.stepsRun == u.stepsRun && u'.currentStep == u.currentStep
    ensures u'.ended == u.ended
    ensures u'.marks == u.marks
  {
  }

  lemma PolledContexts<W>(env: Env, contexts: Contexts, u: Unit<W>)
    requires ContextsOk(env, contexts, u) && u.queue != []
    ensures ContextsOk(env, contexts, Poll(u))
  {
  }

  lemma SameQueue<W>(env: Env, trigger: Pending, u: Unit<W>, v: Unit<W>)
    requires QueueOk(env, trigger, u)
    requires v.recorded == u.recorded && v.queue == u.queue && v.inProcess == u.inProcess && v.stepsRun == u.stepsRun
    ensures QueueOk(env, trigger, v)
  {
  }

  lemma SameContexts<W>(env: Env, contexts: Contexts, u: Unit<W>, v: Unit<W>)
    requires ContextsOk(env, contexts, u) && v.contexts == u.contexts && v.puts == u.puts
    ensures ContextsOk(env, contexts, v)
  {
  }

  lemma NextStepOf<W>(env: Env, trigger: Pending, u: Unit<W>)
    requires ValidModel(env.model) && StepOf(env.model, trigger.step) && trigger.recorded.None?
    requires QueueOk(env, trigger, u) && u.queue != []
    ensures StepOf(env.model, u.queue[0].step)
    ensures u.stepsRun == [] ==> u.queue[0] == trigger
  {
    PollQueue(env, trigger, u);
  }

  lemma StepInstance<W>(env: Env, oracle: Oracle<W>, before: Instances, base: SagaInstance, u: Unit<W>)
    requires InstanceOk(env, before, base, u) && u.queue != [] && !u.ended
    ensures var next, polled := u.queue[0], Poll(u);
      var ran := RunCode(env, oracle(env, Observed(polled), next.event), polled).unit;
      var after := CompleteStep(env, next.step, ran);
      after.thrown.None? ==> InstanceOk(env, before, base, after.unit) && after.unit.ended == next.step.end
  {
    hide RunCode, Extends, CompleteStep, Progressed;
    var next, polled := u.queue[0], Poll(u);
    CodeExtends(env, oracle(env, Observed(polled), next.event), polled);
    var ran := RunCode(env, oracle(env, Observed(polled), next.event), polled).unit;
    ExtendsFrame(env, polled, ran);
    CompleteStepInstance(env, before, base, next.step, ran, u.stepsRun);
  }

  /**
   * A step throws what its code throws, or, if that returns, the first cause the unit of work was marked with; or else
   * the lifecycle's refusal, if it no longer accepts the completion.
   */
  lemma StepThrows<W>(env: Env, oracle: Oracle<W>, u: Unit<W>)
    requires u.queue != []
    ensures var after, polled := RunStep(env, oracle, u), Poll(u);
      var run := RunCode(env, oracle(env, Observed(polled), u.queue[0].event), polled);
      && (run.finish.Throws? ==> after.thrown == Some(run.finish.cause))
      && (!run.finish.Throws? && run.unit.rollbackOnly.Some? ==> after.thrown == run.unit.rollbackOnly)
      && (!run.finish.Throws? && run.unit.rollbackOnly.None? ==>
            after.thrown.None? || after.thrown == Some(INVALID_TRANSITION))
      && (run.finish.Throws? || run.unit.rollbackOnly.Some? ==> after.unit == run.unit)
  {
    hide RunCode;
  }
}
