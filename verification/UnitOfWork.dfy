/**
 * The saga-scoped unit of work, as a function of what client code does. W is the client-held state that takes
 * part in the unit of work (aggregates, repositories, snapshottable handlers). Client code is a finite tree: what
 * one call of a step, handler, loader or saver did, with the commands it sent and the exceptions it caught.
 */
module UnitOfWork {
  import opened Spi
  import opened InMemoryStorage
  import opened AggregateModel
  import opened SagaLifecycle

  type Cause = string
  type ContextValues = map<string, string>
  type Contexts = map<SagaId, ContextValues>

  /** What reading a property comes to: its value as a string, or what its accessor, or its conversion, throws. */
  datatype Reading = ReadsAs(value: string) | ReadThrows(cause: Cause)

  /**
   * identifier is None where there is no @AggregateIdentifier or it is null; a property that is missing or null is not
   * among the properties. A null in place of an event behaves as an event that is not annotated.
   */
  datatype Event = Event(
    className: string, annotated: bool, aggregate: string, identifier: Option<string>, properties: map<string, Reading>)

  datatype Command = Command(className: string, annotated: bool, identifier: Option<string>)

  datatype Route = ServiceRoute | InstanceRoute | CreationRoute

  datatype Step = Step(name: StepName, eventClass: string, associationProperty: string, start: bool, end: bool)

  /** The steps by the class of the event that triggers them. */
  datatype SagaModel = SagaModel(sagaType: string, steps: map<string, Step>) {
    function StepNames(): set<StepName> {
      set c | c in steps :: steps[c].name
    }
  }

  // ----- client code -----------------------------------------------------------------------------------------

  datatype Finish = Returns | ReturnsNull | Throws(cause: Cause)

  datatype Code<W> = Code(effects: seq<Effect<W>>, finish: Finish)

  datatype Effect<W> =
    | Change(world: W)                                    // any change of client-held state
    | Work(ops: seq<Op>)                                  // on the aggregates of the harness' own store
    | PutState(name: string, value: string)               // SagaContext.putState
    | Record(event: Event, caught: bool)                  // DomainEvents.record, or publishing the event
    | Send(command: Option<Command>, call: Call<W>, caught: bool)

  /** What the loader, the handler and the saver do if the command gets that far. */
  datatype Call<W> = Call(load: Code<W>, handler: Code<W>, save: Code<W>)

  // ----- the unit of work ------------------------------------------------------------------------------------

  /** An event of the queue; recorded is its place among the recorded events, None for the triggering event. */
  datatype Pending = Pending(step: Step, event: Event, recorded: Option<nat>)

  datatype Unit<W> = Unit(
    storage: Instances,
    contexts: Contexts,
    world: W,
    aggregates: Objects,
    recorded: seq<Event>,
    queue: seq<Pending>,
    stepsRun: seq<StepName>,
    marks: seq<nat>,                     // how many events were recorded when each step run began
    touched: seq<AggregateReference>,
    currentStep: StepName,
    ended: bool,
    rollbackOnly: Option<Cause>,
    inProcess: seq<nat>,                 // the recorded events delivered in-process, in delivery order
    puts: seq<(string, string)>)         // the context writes, in order

  /** What is fixed for one unit of work. */
  datatype Env = Env(
    model: SagaModel, routes: map<string, Route>, sagaId: SagaId, associations: Associations, now: int)

  predicate Correlates(env: Env, event: Event, step: Step) {
    var p := step.associationProperty;
    p in env.associations && p in event.properties && event.properties[p] == ReadsAs(env.associations[p])
  }

  /** Whether a recorded event is delivered in-process rather than held for dispatch. */
  predicate Reacts(env: Env, event: Event) {
    && event.className in env.model.steps
    && !env.model.steps[event.className].start
    && Correlates(env, event, env.model.steps[event.className])
  }

  /** Whether finding out if the event is to be delivered in-process calls an accessor that throws. */
  predicate AccessorThrows(env: Env, event: Event) {
    && event.className in env.model.steps
    && !env.model.steps[event.className].start
    && var p := env.model.steps[event.className].associationProperty;
       p in env.associations && p in event.properties && event.properties[p].ReadThrows?
  }

  function AccessorCause(env: Env, event: Event): Cause
    requires AccessorThrows(env, event)
  {
    event.properties[env.model.steps[event.className].associationProperty].cause
  }

  function Mark<W>(u: Unit<W>, cause: Cause): Unit<W> {
    if u.rollbackOnly.None? then u.(rollbackOnly := Some(cause)) else u
  }

  predicate Recordable(event: Event) {
    event.annotated && event.identifier.Some?
  }

  function Reference(event: Event): AggregateReference
    requires Recordable(event)
  {
    AggregateReference(event.aggregate, event.identifier.value)
  }

  const INVALID_EVENT: Cause := "IllegalArgumentException: event"
  const INVALID_COMMAND: Cause := "IllegalArgumentException: command"
  const NO_HANDLER: Cause := "NoCommandHandlerException"
  const NOT_FOUND: Cause := "AggregateNotFoundException"
  const NULL_CREATED: Cause := "IllegalStateException: creation handler returned null"
  const INVALID_TRANSITION: Cause := "InvalidSagaTransitionException"
  const DUPLICATE: Cause := "DuplicateSagaInstanceException"

  /** The state after, and the exception thrown out of the call, if any. */
  datatype After<W> = After(unit: Unit<W>, thrown: Option<Cause>)

  datatype Ending<W> = Ending(unit: Unit<W>, finish: Finish)

  /** What the recorder notes of an event before it looks where the event goes. */
  function Noted<W>(event: Event, u: Unit<W>): Unit<W>
    requires Recordable(event)
  {
    u.(touched := u.touched + [Reference(event)], recorded := u.recorded + [event])
  }

  /**
   * HarnessUnitOfWork.record. What is thrown while the annotation and the identifier are read marks the unit of work;
   * what the accessor of the association property throws comes after the event was recorded and marks nothing.
   */
  function RecordEvent<W>(env: Env, event: Event, u: Unit<W>): After<W> {
    if !Recordable(event) then After(Mark(u, INVALID_EVENT), Some(INVALID_EVENT))
    else if AccessorThrows(env, event) then After(Noted(event, u), Some(AccessorCause(env, event)))
    else
      After(Noted(event, u).(queue := if Reacts(env, event)
                                      then u.queue + [Pending(env.model.steps[event.className], event,
                                                              Some(|u.recorded|))]
                                      else u.queue),
            None)
  }

  /** DomainEvents.record, which publishing inside a unit of work comes to: it looks at the annotation itself, first. */
  function RecordThroughFacade<W>(env: Env, event: Event, u: Unit<W>): After<W> {
    if !event.annotated then After(u, Some(INVALID_EVENT)) else RecordEvent(env, event, u)
  }

  function WithState<W>(env: Env, name: string, value: string, u: Unit<W>): Unit<W> {
    u.(contexts := ContextWritten(u.contexts, env.sagaId, name, value), puts := u.puts + [(name, value)])
  }

  function ContextWritten(contexts: Contexts, id: SagaId, name: string, value: string): Contexts {
    contexts[id := (if id in contexts then contexts[id] else map[])[name := value]]
  }

  function RunEffects<W>(env: Env, effects: seq<Effect<W>>, u: Unit<W>): After<W>
    decreases effects
  {
    if effects == [] then After(u, None)
    else
      var first := RunEffect(env, effects[0], u);
      if first.thrown.Some? then first else RunEffects(env, effects[1..], first.unit)
  }

  function RunEffect<W>(env: Env, effect: Effect<W>, u: Unit<W>): After<W>
    decreases effect
  {
    match effect
    case Change(world) => After(u.(world := world), None)
    case Work(ops) => After(u.(aggregates := RunOps(u.aggregates, ops)), None)
    case PutState(name, value) => After(WithState(env, name, value, u), None)
    case Record(event, caught) =>
      var after := RecordThroughFacade(env, event, u);
      After(after.unit, if caught then None else after.thrown)
    case Send(command, call, caught) =>
      var after := SendCommand(env, command, call, u);
      After(after.unit, if caught then None else after.thrown)
  }

  /** HarnessCommandGateway.send: whatever is thrown, the unit of work is marked before it leaves. */
  function SendCommand<W>(env: Env, command: Option<Command>, call: Call<W>, u: Unit<W>): After<W>
    decreases call, 1
  {
    if command.None? || !command.value.annotated then After(Mark(u, INVALID_COMMAND), Some(INVALID_COMMAND))
    else if command.value.className !in env.routes then After(Mark(u, NO_HANDLER), Some(NO_HANDLER))
    else
      var after := Dispatch(env, env.routes[command.value.className], command.value, call, u);
      if after.thrown.Some? then After(Mark(after.unit, after.thrown.value), after.thrown) else after
  }

  function Dispatch<W>(env: Env, route: Route, command: Command, call: Call<W>, u: Unit<W>): After<W>
    decreases call, 0
  {
    match route
    case ServiceRoute =>
      var handled := RunCode(env, call.handler, u);
      After(handled.unit, Thrown(handled.finish))
    case InstanceRoute =>
      if command.identifier.None? then After(u, Some(INVALID_COMMAND))
      else
        var loaded := RunCode(env, call.load, u);
        if loaded.finish.Throws? then After(loaded.unit, Some(loaded.finish.cause))
        else if loaded.finish.ReturnsNull? then After(loaded.unit, Some(NOT_FOUND))
        else
          var handled := RunCode(env, call.handler, loaded.unit);
          if handled.finish.Throws? then After(handled.unit, Some(handled.finish.cause))
          else
            var saved := RunCode(env, call.save, handled.unit);
            After(saved.unit, Thrown(saved.finish))
    case CreationRoute =>
      var created := RunCode(env, call.handler, u);
      if created.finish.Throws? then After(created.unit, Some(created.finish.cause))
      else if created.finish.ReturnsNull? then After(created.unit, Some(NULL_CREATED))
      else
        var saved := RunCode(env, call.save, created.unit);
        After(saved.unit, Thrown(saved.finish))
  }

  function Thrown(finish: Finish): Option<Cause> {
    if finish.Throws? then Some(finish.cause) else None
  }

  function RunCode<W>(env: Env, code: Code<W>, u: Unit<W>): Ending<W>
    decreases code
  {
    var after := RunEffects(env, code.effects, u);
    Ending(after.unit, if after.thrown.Some? then Throws(after.thrown.value) else code.finish)
  }

  // ----- the queue -------------------------------------------------------------------------------------------

  /** The code a step runs, given everything there is when it starts. */
  type Oracle<!W> = (Env, Unit<W>, Event) -> Code<W>

  function Poll<W>(u: Unit<W>): Unit<W>
    requires u.queue != []
  {
    var next := u.queue[0];
    u.(queue := u.queue[1..],
       inProcess := if next.recorded.Some? then u.inProcess + [next.recorded.value] else u.inProcess,
       currentStep := next.step.name,
       stepsRun := u.stepsRun + [next.step.name],
       marks := u.marks + [|u.recorded|],
       touched := [])
  }

  /** What client code sees: of the aggregate store, the states by key and not which object is which. */
  function Observed<W>(u: Unit<W>): Unit<W> {
    u.(aggregates := Enter(Leave(u.aggregates)))
  }

  /** The step's method, the rollback-only check, and the step's completion. */
  function RunStep<W>(env: Env, oracle: Oracle<W>, u: Unit<W>): After<W>
    requires u.queue != []
  {
    var next, polled := u.queue[0], Poll(u);
    var run := RunCode(env, oracle(env, Observed(polled), next.event), polled);
    if run.finish.Throws? then After(run.unit, Some(run.finish.cause))
    else if run.unit.rollbackOnly.Some? then After(run.unit, run.unit.rollbackOnly)
    else CompleteStep(env, next.step, run.unit)
  }

  function CompleteStep<W>(env: Env, step: Step, u: Unit<W>): After<W> {
    var recorded := RecordStepCompleted(u.storage, env.sagaId, u.currentStep, u.touched, env.now);
    if recorded.None? then After(u, Some(INVALID_TRANSITION))
    else if !step.end then After(u.(storage := recorded.value), None)
    else
      var completed := Complete(recorded.value, env.sagaId, u.currentStep, env.now);
      if completed.None? then After(u.(storage := recorded.value), Some(INVALID_TRANSITION))
      else After(u.(storage := completed.value, ended := true), None)
  }

  datatype Progress<W> = Ran(unit: Unit<W>, thrown: Option<Cause>) | StillRunning

  /** The work loop, observed for at most fuel step invocations: a step may go on triggering steps forever. */
  function Drain<W>(env: Env, oracle: Oracle<W>, u: Unit<W>, fuel: nat): Progress<W>
    decreases fuel
  {
    if u.queue == [] || u.ended then Ran(u, None)
    else if fuel == 0 then StillRunning
    else
      var after := RunStep(env, oracle, u);
      if after.thrown.Some? then Ran(after.unit, after.thrown) else Drain(env, oracle, after.unit, fuel - 1)
  }

  /** After the loop: a wait point unless an end step was reached. */
  function Settle<W>(env: Env, u: Unit<W>): After<W> {
    var advanced := Advance(u.storage, env.sagaId, env.now);
    if !u.ended && advanced.None? then After(u, Some(INVALID_TRANSITION))
    else After(if u.ended then u else u.(storage := advanced.value), u.rollbackOnly)
  }

  // ----- the whole unit of work ------------------------------------------------------------------------------

  /** existing is None for a start step; construction is what instantiating the saga class throws, if anything. */
  datatype Trigger = Trigger(
    model: SagaModel, routes: map<string, Route>, step: Step, event: Event, existing: Option<SagaInstance>,
    value: string, freshId: SagaId, now: int, construction: Option<Cause>, copiers: set<string>)

  datatype Stores<W> = Stores(storage: Instances, contexts: Contexts, world: W, aggregates: AggregateStates)

  datatype Result<W> =
    | Result(
        committed: bool,
        sagaId: Option<SagaId>,
        stores: Stores<W>,
        stepsRun: seq<StepName>,
        marks: seq<nat>,
        recorded: seq<Event>,
        inProcess: seq<nat>,
        dispatched: seq<Event>,
        discarded: seq<Event>,
        puts: seq<(string, string)>,
        failure: Option<SagaFailure>,
        cause: Option<Cause>)
    | Unfinished

  function StartedInstance(t: Trigger): SagaInstance {
    CreatedInstance(t.freshId, t.model.sagaType, t.model.StepNames(), t.step.associationProperty, t.value, t.now)
  }

  /** The instance the unit of work works on, before any step. */
  function BaseInstance(t: Trigger): SagaInstance {
    if t.existing.Some? then t.existing.value else StartedInstance(t)
  }

  function EnvOf(t: Trigger): Env {
    Env(t.model, t.routes, BaseInstance(t).sagaId, BaseInstance(t).associations, t.now)
  }

  function StartRejected(t: Trigger, storage: Instances): bool {
    t.existing.None? && HasDuplicate(storage, t.model.sagaType, t.step.associationProperty, t.value)
  }

  /** The storage once the instance is started, if it is. */
  function Opened(t: Trigger, storage: Instances): Instances {
    if t.existing.Some? then storage else Put(storage, StartedInstance(t))
  }

  function Begun<W>(t: Trigger, pre: Stores<W>): Unit<W> {
    Unit(Opened(t, pre.storage), pre.contexts, pre.world, Enter(pre.aggregates), [], [Pending(t.step, t.event, None)],
         [], [], [], t.step.name, false, None, [], [])
  }

  /** The recorded events that were not delivered in-process, in recording order. */
  function Undelivered(recorded: seq<Event>, inProcess: seq<nat>): seq<Event> {
    if recorded == [] then []
    else
      var n := |recorded| - 1;
      Undelivered(recorded[..n], inProcess) + (if n in inProcess then [] else [recorded[n]])
  }

  function Commit<W>(t: Trigger, u: Unit<W>): Result<W> {
    Result(true, Some(EnvOf(t).sagaId), Stores(u.storage, u.contexts, u.world, Leave(u.aggregates)), u.stepsRun,
           u.marks, u.recorded, u.inProcess,
           Undelivered(u.recorded, u.inProcess), [], u.puts, None, None)
  }

  /** The write of its own after a rollback: FAILED, on the instance re-created if this unit of work started it. */
  function FailureWritten(t: Trigger, storage: Instances, failure: SagaFailure): Instances {
    var id := EnvOf(t).sagaId;
    var restored := if t.existing.None? && Find(storage, id).None? then Put(storage, StartedInstance(t)) else storage;
    var failed := Fail(restored, id, failure, t.now);
    if failed.Some? then failed.value else restored
  }

  /** Restores every participant, then writes FAILED on its own; the context store is not restored. */
  function RollBack<W>(t: Trigger, pre: Stores<W>, u: Unit<W>, cause: Cause): Result<W> {
    var failure := SagaFailure(u.currentStep, cause, cause, t.now);
    Result(false, Some(EnvOf(t).sagaId),
           Stores(FailureWritten(t, pre.storage, failure), u.contexts, pre.world,
                  Restored(t.copiers, pre.aggregates, u.aggregates)),
           u.stepsRun, u.marks, u.recorded, u.inProcess, [], Undelivered(u.recorded, u.inProcess), u.puts,
           Some(failure), Some(cause))
  }

  /** A start step whose instance is rejected: nothing ran, and there is no instance to fail. */
  function Rejection<W>(pre: Stores<W>): Result<W> {
    Result(false, None, pre, [], [], [], [], [], [], [], None, Some(DUPLICATE))
  }

  function RunUnit<W>(t: Trigger, oracle: Oracle<W>, pre: Stores<W>, fuel: nat): Result<W> {
    if StartRejected(t, pre.storage) then Rejection(pre)
    else if t.construction.Some? then RollBack(t, pre, Begun(t, pre), t.construction.value)
    else
      var ran := Drain(EnvOf(t), oracle, Begun(t, pre), fuel);
      if ran.StillRunning? then Unfinished
      else if ran.thrown.Some? then RollBack(t, pre, ran.unit, ran.thrown.value)
      else
        var settled := Settle(EnvOf(t), ran.unit);
        if settled.thrown.Some? then RollBack(t, pre, settled.unit, settled.thrown.value) else Commit(t, settled.unit)
  }
}
