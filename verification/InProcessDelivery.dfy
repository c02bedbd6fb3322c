/**
 * Which recorded events a unit of work delivers in-process: those that carry its own instance's value, and for each of
 * them the step of its class.
 */
module InProcessDelivery {
  import opened Spi
  import opened InMemoryStorage
  import opened SagaLifecycle
  import opened UnitOfWork
  import opened ClientCode
  import opened UnitGuarantees
  import opened UnitOutcomes
  import opened EventConservation

  /**
   * The event is of a class that triggers a further step of the saga, and reads, for that step's property, the value
   * the instance is associated with under it.
   */
  predicate CarriesOurValue(model: SagaModel, associations: Associations, event: Event) {
    && event.className in model.steps && !model.steps[event.className].start
    && var property := model.steps[event.className].associationProperty;
       && property in associations
       && property in event.properties && event.properties[property] == ReadsAs(associations[property])
  }

  /**
   * Recording an event that can be recorded adds it, and adds one entry, the last, to the queue iff the model has a
   * further step for its class and the value it reads for that step's property is the instance's; it throws iff reading
   * that value does, which it only does for such a step and a property the instance has.
   */
  lemma RecordingQueues<W>(env: Env, event: Event, u: Unit<W>)
    requires event.annotated && event.identifier.Some?
    ensures var after := RecordThroughFacade(env, event, u);
      && after.unit.recorded == u.recorded + [event]
      && after.unit.touched == u.touched + [AggregateReference(event.aggregate, event.identifier.value)]
      && (|after.unit.queue| == |u.queue| + 1 <==>
            && event.className in env.model.steps && !env.model.steps[event.className].start
            && var property := env.model.steps[event.className].associationProperty;
               && property in env.associations
               && property in event.properties && event.properties[property] == ReadsAs(env.associations[property]))
      && (if |after.unit.queue| == |u.queue| + 1
          then after.unit.queue == u.queue + [Pending(env.model.steps[event.className], event, Some(|u.recorded|))]
          else after.unit.queue == u.queue)
      && (after.thrown.Some? <==>
            && event.className in env.model.steps && !env.model.steps[event.className].start
            && var property := env.model.steps[event.className].associationProperty;
               && property in env.associations
               && property in event.properties && event.properties[property].ReadThrows?)
  {
  }

  /** Which exception a record throws, and that only an identifier that cannot be read marks the unit of work. */
  lemma RecordThrows<W>(env: Env, event: Event, u: Unit<W>)
    ensures var after := RecordThroughFacade(env, event, u);
      if !event.annotated then after == After(u, Some(INVALID_EVENT))
      else if event.identifier.None? then
        && after.thrown == Some(INVALID_EVENT)
        && after.unit == u.(rollbackOnly := if u.rollbackOnly.None? then Some(INVALID_EVENT) else u.rollbackOnly)
      else
        && after.unit.rollbackOnly == u.rollbackOnly
        && (after.thrown.Some? ==>
              && event.className in env.model.steps
              && var property := env.model.steps[event.className].associationProperty;
                 property in event.properties && event.properties[property] == ReadThrows(after.thrown.value))
  {
  }

  lemma ReactsIff(t: Trigger, event: Event)
    ensures Reacts(EnvOf(t), event) <==> CarriesOurValue(t.model, BaseInstance(t).associations, event)
  {
    hide BaseInstance;
  }

  lemma {:induction false} PlacesReact(env: Env, recorded: seq<Event>, n: nat)
    requires n <= |recorded|
    ensures forall k: nat :: k in ReactingPlaces(env, recorded, n) <==> k < n && Reacts(env, recorded[k])
  {
    hide Reacts;
    if n > 0 {
      PlacesReact(env, recorded, n - 1);
    }
  }

  /**
   * In every finished unit of work, what was delivered in-process carries the instance's value, and a commit before any
   * end step has delivered every recorded event that does; all others, and no more, were dispatched.
   */
  lemma DeliveredIffOurs<W>(t: Trigger, oracle: Oracle<W>, pre: Stores<W>, fuel: nat)
    requires ValidTrigger(t, pre.storage)
    ensures var r := RunUnit(t, oracle, pre, fuel);
      r.Result? ==>
        && (forall k <- r.inProcess ::
              k < |r.recorded| && CarriesOurValue(t.model, BaseInstance(t).associations, r.recorded[k]))
        && (r.committed
            && !(r.stepsRun != []
                 && exists c <- t.model.steps :: t.model.steps[c].name == r.stepsRun[|r.stepsRun| - 1]
                                                 && t.model.steps[c].end) ==>
              && (forall k: nat | k < |r.recorded| ::
                    k in r.inProcess <==> CarriesOurValue(t.model, BaseInstance(t).associations, r.recorded[k]))
              && (forall event ::
                    event in r.dispatched <==>
                      event in r.recorded && !CarriesOurValue(t.model, BaseInstance(t).associations, event)))
  {
    hide RunUnit, BaseInstance, EnvOf, CarriesOurValue, Reacts, ValidTrigger, ReactingPlaces, Others, At;
    EventsConserved(t, oracle, pre, fuel);
    var r := RunUnit(t, oracle, pre, fuel);
    if r.Result? {
      PlacesReact(EnvOf(t), r.recorded, |r.recorded|);
      forall event ensures Reacts(EnvOf(t), event) <==> CarriesOurValue(t.model, BaseInstance(t).associations, event) {
        ReactsIff(t, event);
      }
      if r.committed && !IsEndStepRun(t.model, r.stepsRun) {
        DispatchedOthers(t, r);
      }
    }
  }

  lemma DispatchedOthers<W>(t: Trigger, r: Result<W>)
    requires r.Result? && r.committed && Within(r.inProcess, |r.recorded|)
    requires r.dispatched == At(r.recorded, Others(|r.recorded|, r.inProcess))
    requires forall k: nat | k < |r.recorded| ::
               k in r.inProcess <==> CarriesOurValue(t.model, BaseInstance(t).associations, r.recorded[k])
    ensures forall event ::
              event in r.dispatched <==>
                event in r.recorded && !CarriesOurValue(t.model, BaseInstance(t).associations, event)
  {
    hide BaseInstance, CarriesOurValue, Others;
    var others := Others(|r.recorded|, r.inProcess);
    forall event
      ensures event in r.dispatched <==>
                event in r.recorded && !CarriesOurValue(t.model, BaseInstance(t).associations, event)
    {
      if event in r.dispatched {
        var i :| 0 <= i < |others| && r.recorded[others[i]] == event;
        assert others[i] in others;
      }
      if event in r.recorded && !CarriesOurValue(t.model, BaseInstance(t).associations, event) {
        var k: nat :| k < |r.recorded| && r.recorded[k] == event;
        assert k in others;
        var i :| 0 <= i < |others| && others[i] == k;
        assert r.dispatched[i] == event;
      }
    }
  }

  // ----- which step ran --------------------------------------------------------------------------------------

  /** The triggered step ran first, then, for each event delivered in-process, the step of its class, in turn. */
  predicate StepsMatch(model: SagaModel, first: StepName, stepsRun: seq<StepName>, recorded: seq<Event>,
                       inProcess: seq<nat>) {
    && (forall i :: 0 <= i < |inProcess| ==>
          inProcess[i] < |recorded| && recorded[inProcess[i]].className in model.steps)
    && (stepsRun == [] ==> inProcess == [])
    && (stepsRun != [] ==>
          && |stepsRun| == |inProcess| + 1 && stepsRun[0] == first
          && forall i :: 0 <= i < |inProcess| ==>
               stepsRun[i + 1] == model.steps[recorded[inProcess[i]].className].name)
  }

  lemma OneMoreStep<W>(t: Trigger, u: Unit<W>)
    requires StepsMatch(t.model, t.step.name, u.stepsRun, u.recorded, u.inProcess) && u.queue != []
    requires if u.stepsRun == [] then u.queue[0] == TriggerEntry(t) else PendingOf(EnvOf(t), u.recorded, u.queue[0])
    ensures var v := Poll(u); StepsMatch(t.model, t.step.name, v.stepsRun, v.recorded, v.inProcess)
  {
    hide BaseInstance, Correlates;
  }

  lemma MoreRecorded(model: SagaModel, first: StepName, stepsRun: seq<StepName>, recorded: seq<Event>,
                     inProcess: seq<nat>, recorded': seq<Event>)
    requires StepsMatch(model, first, stepsRun, recorded, inProcess) && recorded <= recorded'
    ensures StepsMatch(model, first, stepsRun, recorded', inProcess)
  {
  }

  lemma RecordedPrefix<W>(env: Env, u: Unit<W>, u': Unit<W>)
    requires Extends(env, u, u')
    ensures u.recorded <= u'.recorded && u'.stepsRun == u.stepsRun && u'.inProcess == u.inProcess
  {
    hide PendingFrom, PutAll;
  }

  lemma PassMatches<W>(t: Trigger, oracle: Oracle<W>, pre: Stores<W>, u: Unit<W>)
    requires Looping(t, pre, u) && u.queue != [] && !u.ended
    requires StepsMatch(t.model, t.step.name, u.stepsRun, u.recorded, u.inProcess)
    ensures var v := RunStep(EnvOf(t), oracle, u).unit;
      StepsMatch(t.model, t.step.name, v.stepsRun, v.recorded, v.inProcess)
  {
    hide RunCode, Extends, QueueOk, CompleteStep, Progressed, ContextsOk, ValidModel, SameExcept, StepsOk, StepsMatch,
         PendingOf, EnvOf, BaseInstance, Opened, InstanceOk;
    var env, polled := EnvOf(t), Poll(u);
    PollQueue(env, TriggerEntry(t), u);
    OneMoreStep(t, u);
    var code := oracle(env, Observed(polled), u.queue[0].event);
    CodeExtends(env, code, polled);
    var ran := RunCode(env, code, polled).unit;
    RecordedPrefix(env, polled, ran);
    MoreRecorded(t.model, t.step.name, polled.stepsRun, polled.recorded, polled.inProcess, ran.recorded);
    CompleteStepFrame(env, u.queue[0].step, ran);
  }

  lemma {:induction false} DrainMatches<W>(t: Trigger, oracle: Oracle<W>, pre: Stores<W>, u: Unit<W>, fuel: nat)
    requires Looping(t, pre, u) && StepsMatch(t.model, t.step.name, u.stepsRun, u.recorded, u.inProcess)
    ensures var ran := Drain(EnvOf(t), oracle, u, fuel);
      ran.Ran? ==> StepsMatch(t.model, t.step.name, ran.unit.stepsRun, ran.unit.recorded, ran.unit.inProcess)
    decreases fuel
  {
    hide LoopOk, ThrownOk, RunStep, Opened, BaseInstance, EnvOf, StepsMatch;
    if u.queue != [] && !u.ended && fuel > 0 {
      PassMatches(t, oracle, pre, u);
      StepRanOk(EnvOf(t), oracle, Opened(t, pre.storage), pre.contexts, BaseInstance(t), TriggerEntry(t), u);
      var after := RunStep(EnvOf(t), oracle, u);
      if after.thrown.None? {
        DrainMatches(t, oracle, pre, after.unit, fuel - 1);
      }
    }
  }

  /** In every finished unit of work the steps run are those of the triggering event and of what it delivered. */
  lemma StepsRunAreTriggered<W>(t: Trigger, oracle: Oracle<W>, pre: Stores<W>, fuel: nat)
    requires ValidTrigger(t, pre.storage)
    ensures var r := RunUnit(t, oracle, pre, fuel);
      r.Result? ==> StepsMatch(t.model, t.step.name, r.stepsRun, r.recorded, r.inProcess)
  {
    hide StartRejected, Drain, LoopOk, Settle, EnvOf, ValidTrigger, Looping, StepsMatch, FailureWritten, Undelivered;
    var begun := Begun(t, pre);
    BegunLooping(t, pre);
    NoneMatch(t);
    if !StartRejected(t, pre.storage) && t.construction.None? {
      DrainMatches(t, oracle, pre, begun, fuel);
      var ran := Drain(EnvOf(t), oracle, begun, fuel);
      if ran.Ran? {
        SettleFrame(EnvOf(t), ran.unit);
      }
    }
  }

  lemma NoneMatch(t: Trigger)
    ensures StepsMatch(t.model, t.step.name, [], [], [])
  {
  }

  lemma SettleFrame<W>(env: Env, u: Unit<W>)
    ensures var v := Settle(env, u).unit;
      v.stepsRun == u.stepsRun && v.recorded == u.recorded && v.inProcess == u.inProcess
  {
  }
}
