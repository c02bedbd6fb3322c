/**
 * The unit of work and the command gateway as the objects they are, each method proved to do what the functions of
 * UnitOfWork say. The stores are shared with the harness; the queue, the recorded events and the flags are the
 * unit of work's own.
 */
module HarnessUnitOfWork {
  import opened Spi
  import opened InMemoryStorage
  import opened SagaLifecycle
  import opened AggregateModel
  import opened AggregateStore
  import opened UnitOfWork

  /** InMemorySagaContextStore: the context records, which no rollback touches. */
  class SagaContextStore {
    var records: Contexts

    constructor (records: Contexts)
      ensures this.records == records
    {
      this.records := records;
    }

    method Put(id: SagaId, name: string, value: string)
      modifies this
      ensures records == ContextWritten(old(records), id, name, value)
    {
      var values := if id in records then records[id] else map[];
      values := values[name := value];
      records := records[id := values];
    }
  }

  /** Everything client code holds that takes part in units of work. */
  class Participants<W> {
    var state: W

    constructor (state: W)
      ensures this.state == state
    {
      this.state := state;
    }
  }

  datatype RegisterFailure = NotACommand | AlreadyRouted

  datatype Handler = Handler(commandType: string, annotated: bool, route: Route)

  /** Each handler's command is one, and no two handlers, nor one already there, have the same. */
  predicate Registrable(handlers: seq<Handler>, routes: map<string, Route>) {
    && (forall i :: 0 <= i < |handlers| ==> handlers[i].annotated && handlers[i].commandType !in routes)
    && (forall i, j :: 0 <= i < j < |handlers| ==> handlers[i].commandType != handlers[j].commandType)
  }

  /** The commands routed are those that were and those of the handlers, each to its own route. */
  ghost predicate Routed(handlers: seq<Handler>, routes: map<string, Route>, routes': map<string, Route>) {
    && routes.Keys <= routes'.Keys && (forall c <- routes :: routes'[c] == routes[c])
    && (forall i :: 0 <= i < |handlers| ==>
          handlers[i].commandType in routes' && routes'[handlers[i].commandType] == handlers[i].route)
    && (forall c <- routes' :: c in routes || exists i :: 0 <= i < |handlers| && handlers[i].commandType == c)
  }

  class HarnessCommandGateway {
    var routes: map<string, Route>

    constructor ()
      ensures routes == map[]
    {
      routes := map[];
    }

    /** A command class is routed once: a second registration is refused and changes nothing. */
    method Register(commandType: string, annotated: bool, route: Route) returns (failure: Option<RegisterFailure>)
      modifies this
      ensures failure == (if !annotated then Some(NotACommand)
                          else if commandType in old(routes) then Some(AlreadyRouted) else None)
      ensures routes == if failure.None? then old(routes)[commandType := route] else old(routes)
    {
      if !annotated {
        return Some(NotACommand);
      }
      if commandType in routes {
        return Some(AlreadyRouted);
      }
      routes := routes[commandType := route];
      return None;
    }

    /**
     * Registers the handlers up to the first that cannot be: all of them iff they can be registered together, and
     * exactly the registered ones are routed then, each command to one handler.
     */
    method RegisterAll(handlers: seq<Handler>) returns (accepted: nat, failure: Option<RegisterFailure>)
      modifies this
      ensures accepted <= |handlers| && (failure.None? <==> accepted == |handlers|)
      ensures Registrable(handlers[..accepted], old(routes)) && Routed(handlers[..accepted], old(routes), routes)
      ensures accepted < |handlers| ==> !Registrable(handlers[..accepted + 1], old(routes))
      ensures failure.None? <==> Registrable(handlers, old(routes))
    {
      hide Registrable, Routed;
      failure := None;
      accepted := 0;
      NoneRouted(handlers[..0], routes);
      while accepted < |handlers|
        invariant accepted <= |handlers| && failure.None?
        invariant Registrable(handlers[..accepted], old(routes)) && Routed(handlers[..accepted], old(routes), routes)
      {
        var h, before := handlers[accepted], routes;
        failure := Register(h.commandType, h.annotated, h.route);
        if failure.Some? {
          NotRegistrable(handlers, accepted, old(routes), routes);
          return;
        }
        OneMore(handlers[..accepted], h, old(routes), before);
        assert handlers[..accepted + 1] == handlers[..accepted] + [h];
        accepted := accepted + 1;
      }
      assert handlers[..accepted] == handlers;
    }

    lemma NoneRouted(handlers: seq<Handler>, routes: map<string, Route>)
      requires handlers == []
      ensures Registrable(handlers, routes) && Routed(handlers, routes, routes)
    {
    }

    lemma OneMore(handlers: seq<Handler>, h: Handler, routes: map<string, Route>, routes': map<string, Route>)
      requires Registrable(handlers, routes) && Routed(handlers, routes, routes')
      requires h.annotated && h.commandType !in routes'
      ensures Registrable(handlers + [h], routes)
      ensures Routed(handlers + [h], routes, routes'[h.commandType := h.route])
    {
      var all, next := handlers + [h], routes'[h.commandType := h.route];
      forall c | c in next ensures c in routes || exists i :: 0 <= i < |all| && all[i].commandType == c {
        if c == h.commandType {
          assert all[|handlers|].commandType == c;
        } else if c !in routes {
          var i :| 0 <= i < |handlers| && handlers[i].commandType == c;
          assert all[i].commandType == c;
        }
      }
    }

    lemma NotRegistrable(handlers: seq<Handler>, n: nat, routes: map<string, Route>, routes': map<string, Route>)
      requires n < |handlers| && Routed(handlers[..n], routes, routes')
      requires !handlers[n].annotated || handlers[n].commandType in routes'
      ensures !Registrable(handlers[..n + 1], routes) && !Registrable(handlers, routes)
    {
      var c, upTo := handlers[n].commandType, handlers[..n + 1];
      assert upTo[n] == handlers[n];
      if handlers[n].annotated && c !in routes {
        var i :| 0 <= i < |handlers[..n]| && handlers[..n][i].commandType == c;
        assert upTo[i].commandType == c && handlers[i].commandType == c;
      }
    }

    /** Whatever is thrown, the unit of work is marked rollback-only before it leaves send. */
    method Send<W>(u: HarnessUnitOfWork<W>, command: Option<Command>, call: Call<W>) returns (thrown: Option<Cause>)
      requires u.Valid() && u.env.routes == routes && u.gateway == this
      modifies u`recorded, u`deliveredInProcess, u`queue, u`touched, u`rollbackOnlyCause, u`puts
      modifies u`held, u`scratch, u`objects, u.contextStore, u.participants, u.aggregates, u.aggregates.Repr
      ensures u.Valid() && u.Moved() && u.State() == SendCommand(u.env, command, call, old(u.State())).unit
      ensures thrown == SendCommand(u.env, command, call, old(u.State())).thrown
      decreases call, 3
    {
      hide Dispatch, Mark, HarnessUnitOfWork.Valid, HarnessUnitOfWork.State, HarnessUnitOfWork.Consistent, Extends;
      u.ValidParts();
      u.MovedNothing();
      if command.None? || !command.value.annotated {
        thrown := Some(INVALID_COMMAND);
      } else if command.value.className !in routes {
        thrown := Some(NO_HANDLER);
      } else {
        thrown := DispatchTo(u, routes[command.value.className], command.value, call);
      }
      if thrown.Some? {
        u.ValidParts();
        u.MarkRollbackOnly(thrown.value);
      }
    }

    method DispatchTo<W>(u: HarnessUnitOfWork<W>, route: Route, command: Command, call: Call<W>)
      returns (thrown: Option<Cause>)
      requires u.Valid() && u.env.routes == routes && u.gateway == this
      modifies u`recorded, u`deliveredInProcess, u`queue, u`touched, u`rollbackOnlyCause, u`puts
      modifies u`held, u`scratch, u`objects, u.contextStore, u.participants, u.aggregates, u.aggregates.Repr
      ensures u.Valid() && u.Moved() && u.State() == Dispatch(u.env, route, command, call, old(u.State())).unit
      ensures thrown == Dispatch(u.env, route, command, call, old(u.State())).thrown
      decreases call, 2
    {
      hide Dispatch, HarnessUnitOfWork.Valid, HarnessUnitOfWork.State, Extends;
      match route
      case ServiceRoute =>
        thrown := DispatchToService(u, command, call);
      case InstanceRoute =>
        thrown := DispatchToInstance(u, command, call);
      case CreationRoute =>
        thrown := DispatchToCreation(u, command, call);
    }

    method DispatchToService<W>(u: HarnessUnitOfWork<W>, command: Command, call: Call<W>)
      returns (thrown: Option<Cause>)
      requires u.Valid() && u.env.routes == routes && u.gateway == this
      modifies u`recorded, u`deliveredInProcess, u`queue, u`touched, u`rollbackOnlyCause, u`puts
      modifies u`held, u`scratch, u`objects, u.contextStore, u.participants, u.aggregates, u.aggregates.Repr
      ensures u.Valid() && u.Moved() && u.State() == Dispatch(u.env, ServiceRoute, command, call, old(u.State())).unit
      ensures thrown == Dispatch(u.env, ServiceRoute, command, call, old(u.State())).thrown
      decreases call, 0
    {
      hide RunCode, HarnessUnitOfWork.Valid, HarnessUnitOfWork.State, Extends;
      var handled := u.Execute(call.handler);
      thrown := Thrown(handled);
    }

    /** Loads the aggregate, runs the handler on it and saves it, unless one of them throws or it is not there. */
    method DispatchToInstance<W>(u: HarnessUnitOfWork<W>, command: Command, call: Call<W>)
      returns (thrown: Option<Cause>)
      requires u.Valid() && u.env.routes == routes && u.gateway == this
      modifies u`recorded, u`deliveredInProcess, u`queue, u`touched, u`rollbackOnlyCause, u`puts
      modifies u`held, u`scratch, u`objects, u.contextStore, u.participants, u.aggregates, u.aggregates.Repr
      ensures u.Valid() && u.Moved() && u.State() == Dispatch(u.env, InstanceRoute, command, call, old(u.State())).unit
      ensures thrown == Dispatch(u.env, InstanceRoute, command, call, old(u.State())).thrown
      decreases call, 1
    {
      hide RunCode, HarnessUnitOfWork.Valid, HarnessUnitOfWork.State, Extends;
      ghost var first := u.objects;
      if command.identifier.None? {
        u.MovedNothing();
        return Some(INVALID_COMMAND);
      }
      var loaded := u.Execute(call.load);
      if loaded.Throws? {
        return Some(loaded.cause);
      }
      if loaded.ReturnsNull? {
        return Some(NOT_FOUND);
      }
      ghost var before := u.objects;
      thrown := HandleAndSave(u, call);
      ExtendsTransitive(first, before, u.objects);
    }

    /** The handler, and the saver unless the handler throws. */
    method HandleAndSave<W>(u: HarnessUnitOfWork<W>, call: Call<W>) returns (thrown: Option<Cause>)
      requires u.Valid() && u.env.routes == routes && u.gateway == this
      modifies u`recorded, u`deliveredInProcess, u`queue, u`touched, u`rollbackOnlyCause, u`puts
      modifies u`held, u`scratch, u`objects, u.contextStore, u.participants, u.aggregates, u.aggregates.Repr
      ensures u.Valid() && u.Moved()
      ensures var handled := RunCode(u.env, call.handler, old(u.State()));
        var saved := RunCode(u.env, call.save, handled.unit);
        After(u.State(), thrown) == if handled.finish.Throws? then After(handled.unit, Some(handled.finish.cause))
                                    else After(saved.unit, Thrown(saved.finish))
      decreases call, 0
    {
      hide RunCode, HarnessUnitOfWork.Valid, HarnessUnitOfWork.State, Extends;
      ghost var first := u.objects;
      var handled := u.Execute(call.handler);
      if handled.Throws? {
        return Some(handled.cause);
      }
      ghost var before := u.objects;
      var saved := u.Execute(call.save);
      ExtendsTransitive(first, before, u.objects);
      thrown := Thrown(saved);
    }

    /** Creates the aggregate and saves it, unless the handler throws or returns none. */
    method DispatchToCreation<W>(u: HarnessUnitOfWork<W>, command: Command, call: Call<W>)
      returns (thrown: Option<Cause>)
      requires u.Valid() && u.env.routes == routes && u.gateway == this
      modifies u`recorded, u`deliveredInProcess, u`queue, u`touched, u`rollbackOnlyCause, u`puts
      modifies u`held, u`scratch, u`objects, u.contextStore, u.participants, u.aggregates, u.aggregates.Repr
      ensures u.Valid() && u.Moved() && u.State() == Dispatch(u.env, CreationRoute, command, call, old(u.State())).unit
      ensures thrown == Dispatch(u.env, CreationRoute, command, call, old(u.State())).thrown
      decreases call, 0
    {
      hide RunCode, HarnessUnitOfWork.Valid, HarnessUnitOfWork.State, Extends;
      ghost var first := u.objects;
      var created := u.Execute(call.handler);
      if created.Throws? {
        return Some(created.cause);
      }
      if created.ReturnsNull? {
        return Some(NULL_CREATED);
      }
      ghost var before := u.objects;
      var saved := u.Execute(call.save);
      ExtendsTransitive(first, before, u.objects);
      thrown := Thrown(saved);
    }
  }

  /** A participant's snapshot each: the stored instances and the client-held state are values, the aggregates not. */
  datatype Snapshots<W> = Snapshots(storage: Instances, world: W, aggregates: Entries)

  class HarnessUnitOfWork<W> {
    const trigger: Trigger
    const env: Env
    const gateway: HarnessCommandGateway
    const storage: InMemoryStorageProvider
    const lifecycle: HarnessSagaLifecycle
    const contextStore: SagaContextStore
    const participants: Participants<W>
    const aggregates: InMemoryAggregateStore

    var started: Option<SagaInstance>
    var sagaId: Option<SagaId>
    var recorded: seq<Event>
    var deliveredInProcess: seq<bool>
    var queue: seq<Pending>
    var stepsRun: seq<StepName>
    var marks: seq<nat>
    var touched: seq<AggregateReference>
    var currentStep: StepName
    var ended: bool
    var rollbackOnlyCause: Option<Cause>
    var committed: bool
    var cause: Option<Cause>
    var failure: Option<SagaFailure>
    var dispatched: seq<Event>
    var discarded: seq<Event>
    var inProcess: seq<nat>
    var puts: seq<(string, string)>
    /** The references to aggregates that client code has got in this unit of work; it may use any of them again. */
    var held: seq<Aggregate>
    /** Which aggregates there are, and which object each of them is. */
    ghost var scratch: Objects
    ghost var objects: map<ObjectName, Aggregate>

    ghost predicate Valid()
      reads `recorded, `deliveredInProcess, `inProcess, `queue, `held, `scratch, `objects
      reads lifecycle, gateway, aggregates, aggregates.Repr
    {
      && aggregates.Valid() && aggregates.copiers == trigger.copiers
      && aggregates.Represents(scratch, objects, held)
      && Consistent()
    }

    ghost predicate Consistent()
      reads `recorded, `deliveredInProcess, `inProcess, `queue, lifecycle, gateway
    {
      && lifecycle.storage == storage && lifecycle.clock == env.now && env == EnvOf(trigger)
      && gateway.routes == env.routes && Queued()
    }

    ghost predicate Queued()
      reads `recorded, `deliveredInProcess, `inProcess, `queue
    {
      && |deliveredInProcess| == |recorded|
      && (forall i :: 0 <= i < |recorded| ==> (deliveredInProcess[i] <==> i in inProcess))
      && (forall i :: 0 <= i < |queue| && queue[i].recorded.Some? ==> queue[i].recorded.value < |recorded|)
      && (forall n <- inProcess :: n < |recorded|)
    }

    ghost function State(): Unit<W>
      reads this, storage, contextStore, participants
    {
      Unit(storage.instances, contextStore.records, participants.state, scratch, recorded, queue, stepsRun, marks,
           touched, currentStep, ended, rollbackOnlyCause, inProcess, puts)
    }

    /** What client code can see of it. */
    function View(): Unit<W>
      reads this, storage, contextStore, participants, aggregates, aggregates.aggregates.Values
    {
      Unit(storage.instances, contextStore.records, participants.state, Enter(States(aggregates.aggregates)), recorded,
           queue, stepsRun, marks, touched, currentStep, ended, rollbackOnlyCause, inProcess, puts)
    }

    lemma ViewIsObserved()
      requires Valid()
      ensures View() == Observed(State()) && States(aggregates.aggregates) == Leave(scratch) && aggregates.Keyed()
    {
      aggregates.RepresentsStates(scratch, objects, held);
    }

    /** Client code has been at work: what it made is new, and what was there is still the same object. */
    twostate predicate Moved()
      reads this, aggregates
    {
      aggregates.Grown() && Extends(old(objects), objects)
    }

    constructor (trigger: Trigger, gateway: HarnessCommandGateway, storage: InMemoryStorageProvider,
                 lifecycle: HarnessSagaLifecycle, contextStore: SagaContextStore, participants: Participants<W>,
                 aggregates: InMemoryAggregateStore)
      requires lifecycle.storage == storage && lifecycle.clock == trigger.now && gateway.routes == trigger.routes
      requires aggregates.Valid() && aggregates.Keyed() && aggregates.copiers == trigger.copiers
      ensures Valid() && this.trigger == trigger && this.env == EnvOf(trigger) && this.gateway == gateway
      ensures this.storage == storage && this.lifecycle == lifecycle
      ensures this.contextStore == contextStore && this.participants == participants && this.aggregates == aggregates
      ensures Pristine()
    {
      hide Valid, Enter, States, InMemoryAggregateStore.Represents, InMemoryAggregateStore.Initially;
      this.trigger, this.env, this.gateway := trigger, EnvOf(trigger), gateway;
      this.storage, this.lifecycle, this.contextStore, this.participants :=
          storage, lifecycle, contextStore, participants;
      started, sagaId := None, None;
      recorded, deliveredInProcess, queue, stepsRun, touched := [], [], [], [], [];
      currentStep, ended, rollbackOnlyCause, committed := trigger.step.name, false, None, false;
      cause, failure, dispatched, discarded := None, None, [], [];
      inProcess, puts, marks, held := [], [], [], [];
      this.aggregates := aggregates;
      scratch, objects := Enter(map[]), map[];
      new;
      Enroll();
    }

    /** The aggregates there are when the unit of work begins. */
    method Enroll()
      requires aggregates.Valid() && aggregates.Keyed() && aggregates.copiers == trigger.copiers && Consistent()
      modifies `held, `scratch, `objects
      ensures Valid() && scratch == Enter(States(aggregates.aggregates)) && objects == aggregates.Initially()
    {
      hide Enter, States, Queued, InMemoryAggregateStore.Represents, InMemoryAggregateStore.Initially;
      held := [];
      scratch, objects := Enter(States(aggregates.aggregates)), aggregates.Initially();
      aggregates.InitiallyRepresents();
    }

    method MarkRollbackOnly(failureCause: Cause)
      requires Consistent()
      modifies this`rollbackOnlyCause
      ensures Consistent() && State() == Mark(old(State()), failureCause)
    {
      if rollbackOnlyCause.None? {
        rollbackOnlyCause := Some(failureCause);
      }
    }

    method Record(event: Event) returns (thrown: Option<Cause>)
      requires Valid()
      modifies `recorded, `deliveredInProcess, `queue, `touched, `rollbackOnlyCause
      ensures Valid() && State() == RecordEvent(env, event, old(State())).unit
      ensures thrown == RecordEvent(env, event, old(State())).thrown
    {
      hide Reacts, AccessorThrows, Mark, Queued, InMemoryAggregateStore.Represents;
      if !Recordable(event) {
        MarkRollbackOnly(INVALID_EVENT);
        return Some(INVALID_EVENT);
      }
      thrown := Append(event);
    }

    /** The event is recorded before its accessor is called, which may throw. */
    method Append(event: Event) returns (thrown: Option<Cause>)
      requires Consistent() && Recordable(event)
      modifies `recorded, `deliveredInProcess, `queue, `touched
      ensures Consistent() && touched == old(touched) + [Reference(event)] && recorded == old(recorded) + [event]
      ensures thrown == if AccessorThrows(env, event) then Some(AccessorCause(env, event)) else None
      ensures queue ==
                if thrown.None? && Reacts(env, event)
                then old(queue) + [Pending(env.model.steps[event.className], event, Some(|old(recorded)|))]
                else old(queue)
    {
      touched := touched + [Reference(event)];
      recorded, deliveredInProcess := recorded + [event], deliveredInProcess + [false];
      thrown := None;
      if event.className in env.model.steps {
        var step := env.model.steps[event.className];
        if !step.start {
          var correlates;
          correlates, thrown := CorrelatesWith(event, step);
          if thrown.None? && correlates {
            queue := queue + [Pending(step, event, Some(|recorded| - 1))];
          }
        }
      }
    }

    /** No accessor is called if the saga has no association of that name. */
    method CorrelatesWith(event: Event, step: Step) returns (correlates: bool, thrown: Option<Cause>)
      ensures var p := step.associationProperty;
        thrown == if p in env.associations && p in event.properties && event.properties[p].ReadThrows?
                  then Some(event.properties[p].cause) else None
      ensures thrown.None? ==> correlates == Correlates(env, event, step)
    {
      var p := step.associationProperty;
      if p !in env.associations || p !in event.properties {
        return false, None;
      }
      match event.properties[p]
      case ReadThrows(cause) =>
        return false, Some(cause);
      case ReadsAs(value) =>
        return value == env.associations[p], None;
    }

    /** DomainEvents.record: the recorder is not reached by an event that is not annotated. */
    method RecordFromClient(event: Event) returns (thrown: Option<Cause>)
      requires Valid()
      modifies `recorded, `deliveredInProcess, `queue, `touched, `rollbackOnlyCause
      ensures Valid() && State() == RecordThroughFacade(env, event, old(State())).unit
      ensures thrown == RecordThroughFacade(env, event, old(State())).thrown
    {
      hide RecordEvent, Valid;
      if !event.annotated {
        return Some(INVALID_EVENT);
      }
      thrown := Record(event);
    }

    /** SagaContext.putState, written through to the store. */
    method PutState(name: string, value: string)
      requires Consistent()
      modifies this`puts, contextStore
      ensures Consistent() && State() == WithState(env, name, value, old(State()))
    {
      contextStore.Put(env.sagaId, name, value);
      puts := puts + [(name, value)];
    }

    /** Runs client code up to its end or the first exception it does not catch. */
    method Execute(code: Code<W>) returns (finish: Finish)
      requires Valid()
      modifies `recorded, `deliveredInProcess, `queue, `touched, `rollbackOnlyCause, `puts, `held, `scratch, `objects
      modifies contextStore, participants, aggregates, aggregates.Repr
      ensures Valid() && Moved() && State() == RunCode(env, code, old(State())).unit
      ensures finish == RunCode(env, code, old(State())).finish
      decreases code
    {
      hide RunEffect, Valid, State, Extends;
      finish := code.finish;
      ghost var first := objects;
      assert Moved() by {
        MovedNothing();
      }
      for i := 0 to |code.effects|
        invariant Valid() && Moved() && finish == code.finish
        invariant RunEffects(env, code.effects[i..], State()) == RunEffects(env, code.effects, old(State()))
      {
        ghost var rest := code.effects[i..];
        assert rest[0] == code.effects[i] && rest[1..] == code.effects[i + 1..];
        ghost var before := objects;
        var thrown := Perform(code.effects[i]);
        ExtendsTransitive(first, before, objects);
        if thrown.Some? {
          return Throws(thrown.value);
        }
      }
    }

    method Perform(effect: Effect<W>) returns (thrown: Option<Cause>)
      requires Valid()
      modifies `recorded, `deliveredInProcess, `queue, `touched, `rollbackOnlyCause, `puts, `held, `scratch, `objects
      modifies contextStore, participants, aggregates, aggregates.Repr
      ensures Valid() && Moved() && State() == RunEffect(env, effect, old(State())).unit
      ensures thrown == RunEffect(env, effect, old(State())).thrown
      decreases effect
    {
      hide RecordThroughFacade, SendCommand, WithState, RunOps, Valid, Extends, State;
      MovedNothing();
      thrown := None;
      match effect
      case Change(world) =>
        ChangeWorld(world);
      case Work(ops) =>
        DoWork(ops);
      case PutState(name, value) =>
        ValidParts();
        PutState(name, value);
      case Record(event, caught) =>
        thrown := RecordFromClient(event);
        thrown := if caught then None else thrown;
      case Send(command, call, caught) =>
        ValidParts();
        thrown := gateway.Send(this, command, call);
        thrown := if caught then None else thrown;
    }

    method ChangeWorld(world: W)
      requires Valid()
      modifies participants
      ensures Valid() && State() == old(State()).(world := world)
    {
      hide Valid;
      participants.state := world;
    }

    method DoWork(ops: seq<Op>)
      requires Valid()
      modifies `held, `scratch, `objects, aggregates, aggregates.Repr
      ensures Valid() && Moved() && State() == old(State()).(aggregates := RunOps(old(State()).aggregates, ops))
    {
      hide Valid, RunOps, Extends;
      WorkOnAggregates(ops);
    }

    method WorkOnAggregates(ops: seq<Op>)
      requires Valid()
      modifies `held, `scratch, `objects, aggregates, aggregates.Repr
      ensures Valid() && Moved() && scratch == RunOps(old(scratch), ops)
    {
      hide RunOps, Queued, InMemoryAggregateStore.Represents;
      held, objects := aggregates.Work(ops, held, scratch, objects);
      scratch := RunOps(scratch, ops);
    }

    // ----- the whole unit of work ----------------------------------------------------------------------------

    function StoresNow(): Stores<W>
      reads this, storage, contextStore, participants, aggregates, aggregates.aggregates.Values
    {
      Stores(storage.instances, contextStore.records, participants.state, States(aggregates.aggregates))
    }

    ghost function StoresLeft(): Stores<W>
      reads this, storage, contextStore, participants
    {
      Stores(storage.instances, contextStore.records, participants.state, Leave(scratch))
    }

    ghost function Left(): Result<W>
      reads this, storage, contextStore, participants
    {
      Result(committed, sagaId, StoresLeft(), stepsRun, marks, recorded, inProcess, dispatched, discarded, puts,
             failure, cause)
    }

    /** It ended as r says, but for the dispatch, which is still to come. */
    ghost predicate EndedAs(r: Result<W>)
      reads this, storage, contextStore, participants
    {
      && r.Result? && Left() == r.(dispatched := [])
      && r.dispatched == if committed then Undelivered(recorded, inProcess) else []
    }

    lemma ValidParts()
      requires Valid()
      ensures Consistent() && env == EnvOf(trigger) && aggregates.Valid() && aggregates.copiers == trigger.copiers
    {
    }

    lemma LeftIsOutcome()
      requires Valid()
      ensures StoresLeft() == StoresNow() && Left() == Outcome() && aggregates.Keyed()
    {
      hide Leave, States, InMemoryAggregateStore.Represents;
      ViewIsObserved();
    }

    /** What the unit of work reports. */
    function Outcome(): Result<W>
      reads this, storage, contextStore, participants, aggregates, aggregates.aggregates.Values
    {
      Result(committed, sagaId, StoresNow(), stepsRun, marks, recorded, inProcess, dispatched, discarded, puts, failure,
             cause)
    }

    ghost predicate Pristine()
      reads this, aggregates, aggregates.aggregates.Values
    {
      && scratch == Enter(States(aggregates.aggregates)) && objects == aggregates.Initially()
      && started.None? && sagaId.None? && Unreported() && NothingRun() && queue == []
    }

    /** No step ran. */
    ghost predicate NothingRun()
      reads `recorded, `stepsRun, `marks, `touched, `inProcess, `puts, `currentStep, `ended, `rollbackOnlyCause
    {
      && recorded == [] && stepsRun == [] && marks == [] && touched == [] && inProcess == [] && puts == []
      && currentStep == trigger.step.name && !ended && rollbackOnlyCause.None?
    }

    /** Starts the instance, if the triggering event is to start one. */
    method Open(ghost pre: Stores<W>) returns (rejected: bool)
      requires Consistent() && Pristine() && pre == StoresLeft()
      modifies this`started, this`sagaId, storage
      ensures Consistent() && rejected == StartRejected(trigger, pre.storage)
      ensures if rejected then Pristine() && pre == StoresLeft() else Opening(pre) && queue == []
    {
      hide Queued, States, Leave, Enter, NothingRun, State, Opening, CreatedInstance;
      LeaveEnter(States(aggregates.aggregates));
      rejected := Start();
      if !rejected {
        OpeningFrom(pre);
      }
    }

    method Start() returns (rejected: bool)
      requires Consistent() && started.None? && sagaId.None? && Unreported()
      modifies this`started, this`sagaId, storage
      ensures Consistent() && rejected == StartRejected(trigger, old(storage.instances))
      ensures if rejected then started.None? && sagaId.None? && storage.instances == old(storage.instances)
              else Underway() && storage.instances == Opened(trigger, old(storage.instances))
    {
      hide Queued, Put, HasDuplicate, CreatedInstance;
      if trigger.existing.Some? {
        sagaId := Some(env.sagaId);
        return false;
      }
      started := lifecycle.StartSaga(trigger.freshId, trigger.model.sagaType, trigger.model.StepNames(),
                                     trigger.step.associationProperty, trigger.value);
      if started.None? {
        return true;
      }
      sagaId := Some(started.value.sagaId);
      return false;
    }

    lemma OpeningFrom(pre: Stores<W>)
      requires Underway() && NothingRun() && scratch == Enter(pre.aggregates)
      requires storage.instances == Opened(trigger, pre.storage) && contextStore.records == pre.contexts
      requires participants.state == pre.world
      ensures Opening(pre)
    {
      hide Opened, Enter, Underway;
    }

    /** The instance is started or found, and nothing else is done yet. */
    ghost predicate Opening(pre: Stores<W>)
      reads this, storage, contextStore, participants
    {
      State() == Begun(trigger, pre).(queue := queue) && Underway()
    }

    ghost predicate Underway()
      reads `started, `sagaId, `committed, `dispatched, `discarded, `cause, `failure
    {
      && started == (if trigger.existing.None? then Some(StartedInstance(trigger)) else None)
      && sagaId == Some(env.sagaId) && Unreported()
    }

    ghost predicate Unreported()
      reads `committed, `dispatched, `discarded, `cause, `failure
    {
      !committed && dispatched == [] && discarded == [] && cause.None? && failure.None?
    }

    /** Takes the next event off the queue, marking a recorded one delivered. */
    method PollNext() returns (next: Pending)
      requires Valid() && queue != []
      modifies `queue, `deliveredInProcess, `inProcess, `currentStep, `stepsRun, `marks, `touched
      ensures Valid() && next == old(queue[0]) && State() == Poll(old(State()))
    {
      hide Valid, State, Queued;
      StateParts();
      next := TakeFirst();
      BeginStep(next.step.name);
    }

    method TakeFirst() returns (next: Pending)
      requires Valid() && queue != []
      modifies `queue, `deliveredInProcess, `inProcess
      ensures Valid() && next == old(queue[0])
      ensures State() == old(State()).(queue := old(queue[1..]),
                inProcess := if next.recorded.Some? then old(inProcess) + [next.recorded.value] else old(inProcess))
    {
      hide InMemoryAggregateStore.Represents;
      next := queue[0];
      MarkDelivered(next);
      queue := queue[1..];
    }

    method BeginStep(name: StepName)
      modifies `currentStep, `stepsRun, `marks, `touched
      ensures State() == old(State()).(currentStep := name, stepsRun := old(State()).stepsRun + [name],
                                       marks := old(State()).marks + [|old(State()).recorded|], touched := [])
    {
      currentStep := name;
      stepsRun, marks := stepsRun + [currentStep], marks + [|recorded|];
      touched := [];
    }

    method MarkDelivered(next: Pending)
      requires Queued() && (next.recorded.Some? ==> next.recorded.value < |recorded|)
      modifies `deliveredInProcess, `inProcess
      ensures Queued()
      ensures inProcess == old(inProcess) + (if next.recorded.Some? then [next.recorded.value] else [])
    {
      if next.recorded.Some? {
        var n := next.recorded.value;
        deliveredInProcess := deliveredInProcess[n := true];
        assert forall k :: k in inProcess + [n] <==> k in inProcess || k == n;
        inProcess := inProcess + [n];
      }
    }

    lemma StateParts()
      ensures State().queue == queue && State().ended == ended && State().rollbackOnly == rollbackOnlyCause
      ensures State().inProcess == inProcess
    {
    }

    lemma MovedNothing()
      ensures Extends(objects, objects)
    {
    }

    /** Runs the triggered step, then every queued event, until an end step, an exception, or an empty queue. */
    method RunSteps(oracle: Oracle<W>, fuel: nat) returns (finished: bool, thrown: Option<Cause>)
      requires Valid()
      modifies `recorded, `deliveredInProcess, `queue, `stepsRun, `touched, `currentStep, `ended
      modifies `rollbackOnlyCause, `inProcess, `puts
      modifies `marks, `held, `scratch, `objects, storage, contextStore, participants, aggregates, aggregates.Repr
      ensures Valid() && Moved()
      ensures Drain(env, oracle, old(State()), fuel) == if finished then Ran(State(), thrown) else StillRunning
    {
      hide RunStep, Poll, Valid, Consistent, State, Extends;
      MovedNothing();
      StateParts();
      ghost var first, begun := objects, State();
      var left: nat := fuel;
      while queue != [] && !ended
        invariant Valid() && Moved() && left <= fuel
        invariant Drain(env, oracle, State(), left) == Drain(env, oracle, begun, fuel)
        decreases left
      {
        StateParts();
        if left == 0 {
          return false, None;
        }
        left := left - 1;
        ghost var before := objects;
        thrown := NextStep(oracle);
        ExtendsTransitive(first, before, objects);
        if thrown.Some? {
          return true, thrown;
        }
      }
      StateParts();
      return true, None;
    }

    /** Whatever client code does, it does not get at the copies of the snapshots. */
    method RunStepsBeside(taken: Snapshots<W>, oracle: Oracle<W>, fuel: nat, ghost pre: Stores<W>)
      returns (finished: bool, thrown: Option<Cause>)
      requires Valid() && TakenFrom(taken, pre)
      modifies `recorded, `deliveredInProcess, `queue, `stepsRun, `touched, `currentStep, `ended
      modifies `rollbackOnlyCause, `inProcess, `puts
      modifies `marks, `held, `scratch, `objects, storage, contextStore, participants, aggregates, aggregates.Repr
      ensures Valid() && Moved() && TakenFrom(taken, pre)
      ensures Drain(env, oracle, old(State()), fuel) == if finished then Ran(State(), thrown) else StillRunning
    {
      hide Drain, State, Valid, Consistent;
      ValidParts();
      finished, thrown := RunSteps(oracle, fuel);
      ValidParts();
    }

    /** One pass through the work loop. */
    method NextStep(oracle: Oracle<W>) returns (thrown: Option<Cause>)
      requires Valid() && queue != [] && !ended
      modifies `recorded, `deliveredInProcess, `queue, `stepsRun, `touched, `currentStep, `ended
      modifies `rollbackOnlyCause, `inProcess, `puts
      modifies `marks, `held, `scratch, `objects, storage, contextStore, participants, aggregates, aggregates.Repr
      ensures Valid() && Moved()
      ensures State() == RunStep(env, oracle, old(State())).unit
      ensures thrown == RunStep(env, oracle, old(State())).thrown
    {
      hide RunCode, Poll, CompleteStep, Valid, Observed, Extends, State;
      StateParts();
      var next, finish := InvokeStep(oracle);
      StateParts();
      if finish.Throws? {
        return Some(finish.cause);
      }
      if rollbackOnlyCause.Some? {
        return rollbackOnlyCause;
      }
      ValidParts();
      thrown := Finished(next.step);
    }

    /** Takes the next event off the queue and calls its step, which sees the stores as they are then. */
    method InvokeStep(oracle: Oracle<W>) returns (next: Pending, finish: Finish)
      requires Valid() && queue != []
      modifies `recorded, `deliveredInProcess, `queue, `stepsRun, `touched, `currentStep
      modifies `rollbackOnlyCause, `inProcess, `puts
      modifies `marks, `held, `scratch, `objects, contextStore, participants, aggregates, aggregates.Repr
      ensures Valid() && Moved() && next == old(queue[0])
      ensures var polled := Poll(old(State()));
        Ending(State(), finish) == RunCode(env, oracle(env, Observed(polled), next.event), polled)
    {
      hide RunCode, Poll, Enter, Leave, Valid, Observed, View, Extends, State;
      StateParts();
      next := PollNext();
      ViewIsObserved();
      finish := Execute(oracle(env, View(), next.event));
    }

    /** Records the step completed, and the saga too after an end step. */
    method Finished(step: Step) returns (thrown: Option<Cause>)
      requires Consistent() && !ended
      modifies `ended, storage
      ensures Consistent()
      ensures State() == CompleteStep(env, step, old(State())).unit
      ensures thrown == CompleteStep(env, step, old(State())).thrown
    {
      hide RecordStepCompleted, Complete;
      var completed := lifecycle.StepCompleted(env.sagaId, currentStep, touched);
      if !completed {
        return Some(INVALID_TRANSITION);
      }
      if step.end {
        completed := lifecycle.CompleteSaga(env.sagaId, currentStep);
        if !completed {
          return Some(INVALID_TRANSITION);
        }
        ended := true;
      }
      return None;
    }

    /** The end of the loop: the saga waits, unless it ended. */
    method Conclude() returns (thrown: Option<Cause>)
      requires Consistent()
      modifies storage
      ensures Consistent()
      ensures State() == Settle(env, old(State())).unit && thrown == Settle(env, old(State())).thrown
    {
      if !ended {
        var advanced := lifecycle.AdvanceSaga(env.sagaId);
        if !advanced {
          return Some(INVALID_TRANSITION);
        }
      }
      return rollbackOnlyCause;
    }

    /** The participants' snapshots that a rollback restores hold what was there. */
    ghost predicate TakenFrom(taken: Snapshots<W>, pre: Stores<W>)
      reads `objects, aggregates, taken.aggregates.Values
    {
      && taken.storage == pre.storage && taken.world == pre.world
      && aggregates.Copies(taken.aggregates, pre.aggregates, objects)
    }

    method TakeSnapshots() returns (taken: Snapshots<W>)
      requires Valid() && Pristine()
      ensures Valid() && TakenFrom(taken, StoresLeft())
    {
      hide Valid, View, State, States, Enter, Leave, InMemoryAggregateStore.Copies, InMemoryAggregateStore.Initially;
      ValidParts();
      ViewIsObserved();
      var copies := aggregates.TakeCopies();
      taken := Snapshots(storage.instances, participants.state, copies);
    }

    /** Restores every participant, lists what is discarded, and records the failure in a write of its own. */
    method Rollback(taken: Snapshots<W>, thrown: Cause, ghost pre: Stores<W>)
      requires Valid() && Unreported() && TakenFrom(taken, pre)
      requires sagaId.Some? ==> started == (if trigger.existing.None? then Some(StartedInstance(trigger)) else None)
      modifies `queue, `cause, `failure, `discarded, `held, `scratch, `objects, storage, participants, aggregates
      ensures Valid() && aggregates.Grown()
      ensures participants.state == pre.world
      ensures Leave(scratch) == Restored(trigger.copiers, pre.aggregates, old(scratch))
      ensures cause == Some(thrown) && discarded == Undelivered(recorded, inProcess) && queue == []
      ensures failure == if sagaId.Some? then Some(SagaFailure(currentStep, thrown, thrown, env.now)) else None
      ensures storage.instances ==
                if sagaId.Some? then FailureWritten(trigger, pre.storage, failure.value) else pre.storage
    {
      hide FailureWritten, Undelivered, BaseInstance, StartedInstance, Restored, Enter, Leave, Queued;
      hide InMemoryAggregateStore.Represents, InMemoryAggregateStore.Copies;
      RestoreAggregates(taken.aggregates, pre.aggregates);
      Clear(taken, thrown);
      if sagaId.Some? {
        failure := Some(SagaFailure(currentStep, thrown, thrown, env.now));
        RecordFailure(failure.value);
      }
    }

    /** A rollback after the instance was started or found. */
    method RollbackStarted(taken: Snapshots<W>, thrown: Cause, ghost pre: Stores<W>)
      requires Valid() && Underway() && TakenFrom(taken, pre)
      modifies `queue, `cause, `failure, `discarded, `held, `scratch, `objects, storage, participants, aggregates
      ensures Valid() && aggregates.Grown()
      ensures EndedAs(RollBack(trigger, pre, old(State()), thrown))
    {
      hide FailureWritten, Undelivered, BaseInstance, StartedInstance, Restored, Enter, Leave, Valid, TakenFrom;
      ValidParts();
      Rollback(taken, thrown, pre);
    }

    /** The participants that are values, and the queue. */
    method Clear(taken: Snapshots<W>, thrown: Cause)
      requires Consistent()
      modifies `queue, `cause, `discarded, storage, participants
      ensures Consistent() && storage.instances == taken.storage && participants.state == taken.world
      ensures discarded == Undelivered(recorded, inProcess) && queue == [] && cause == Some(thrown)
    {
      hide Undelivered;
      storage.Restore(taken.storage);
      participants.state := taken.world;
      discarded := Held();
      queue := [];
      cause := Some(thrown);
    }

    /** Copies of the copies go back, and the very objects where there is no copier, whatever was done to them. */
    method RestoreAggregates(copies: Entries, ghost before: AggregateStates)
      requires Valid() && aggregates.Copies(copies, before, objects)
      modifies `held, `scratch, `objects, aggregates
      ensures Valid() && aggregates.Grown()
      ensures Leave(scratch) == Restored(trigger.copiers, before, old(scratch))
    {
      hide Queued, InMemoryAggregateStore.Represents, InMemoryAggregateStore.Copies, Restored, Enter, Leave, States;
      hide InMemoryAggregateStore.Initially;
      aggregates.RestoreCopies(copies, before, scratch, objects, held);
      LeaveEnter(States(aggregates.aggregates));
      Enroll();
    }

    /** The write of its own: re-creates the instance if this unit of work started it, then marks it FAILED. */
    method RecordFailure(failure: SagaFailure)
      requires Consistent() && started == (if trigger.existing.None? then Some(StartedInstance(trigger)) else None)
      modifies storage
      ensures Consistent()
      ensures storage.instances == FailureWritten(trigger, old(storage.instances), failure)
    {
      hide Fail, Find, Put, StartedInstance, BaseInstance, Queued;
      if started.Some? {
        var found := storage.FindById(env.sagaId);
        if found.None? {
          storage.Save(started.value);
        }
      }
      var failed := lifecycle.FailSaga(env.sagaId, failure);
    }

    /** The recorded events not delivered in-process, in recording order. */
    method Held() returns (held: seq<Event>)
      requires Queued()
      ensures held == Undelivered(recorded, inProcess)
    {
      held := [];
      for i := 0 to |recorded|
        invariant held == Undelivered(recorded[..i], inProcess)
      {
        assert recorded[..i + 1][..i] == recorded[..i];
        if !deliveredInProcess[i] {
          held := held + [recorded[i]];
        }
      }
      assert recorded[..|recorded|] == recorded;
    }

    /** Runs to commit or rollback; an unfinished run is one that fuel steps did not end. */
    method Run(oracle: Oracle<W>, fuel: nat) returns (finished: bool)
      requires Valid() && Pristine()
      modifies this, storage, contextStore, participants, aggregates, aggregates.Repr
      ensures Valid() && aggregates.Grown() && aggregates.Keyed()
      ensures finished <==> RunUnit(trigger, oracle, old(StoresNow()), fuel).Result?
      ensures finished ==> Outcome() == RunUnit(trigger, oracle, old(StoresNow()), fuel).(dispatched := [])
      ensures finished ==> RunUnit(trigger, oracle, old(StoresNow()), fuel).dispatched ==
                             if committed then Undelivered(recorded, inProcess) else []
      ensures finished && !committed ==> AsBefore()
    {
      hide RunUnit, Undelivered, Queued, States, Leave, StoresLeft, Left, TakenFrom;
      hide InMemoryAggregateStore.Represents, InMemoryAggregateStore.Copies;
      LeftIsOutcome();
      var taken := TakeSnapshots();
      finished := RunFrom(taken, oracle, fuel, StoresLeft());
      LeftIsOutcome();
      RolledBackKeeps(trigger, oracle, old(StoresNow()), fuel);
    }

    /** The aggregates stored when the unit of work began are stored now, and as they were if there is a copier. */
    twostate predicate AsBefore()
      reads this, aggregates, aggregates.aggregates.Values
    {
      var states, before := States(aggregates.aggregates), old(States(aggregates.aggregates));
      && states.Keys == before.Keys
      && forall k <- states :: k.0 in trigger.copiers ==> states[k] == before[k]
    }

    lemma RolledBackKeeps(t: Trigger, oracle: Oracle<W>, pre: Stores<W>, fuel: nat)
      ensures var r := RunUnit(t, oracle, pre, fuel);
        r.Result? && !r.committed ==>
          && r.stores.aggregates.Keys == pre.aggregates.Keys
          && forall k <- pre.aggregates :: k.0 in t.copiers ==> r.stores.aggregates[k] == pre.aggregates[k]
    {
      hide Drain, Settle, FailureWritten, Undelivered, StartRejected, Begun;
    }


    /** Runs to commit or rollback, and dispatches what there is to dispatch. */
    method RunAndDispatch(oracle: Oracle<W>, fuel: nat) returns (result: Result<W>)
      requires Valid() && Pristine()
      modifies this, storage, contextStore, participants, aggregates, aggregates.Repr
      ensures aggregates.Valid() && aggregates.Keyed() && aggregates.copiers == trigger.copiers && aggregates.Grown()
      ensures result == RunUnit(trigger, oracle, old(StoresNow()), fuel)
      ensures result.Result? ==> result.stores == StoresNow()
    {
      hide RunUnit, Undelivered, Valid, States;
      var finished := Run(oracle, fuel);
      ValidParts();
      if !finished {
        return Unfinished;
      }
      if committed {
        DispatchPending();
      }
      return Outcome();
    }

    method RunFrom(taken: Snapshots<W>, oracle: Oracle<W>, fuel: nat, ghost pre: Stores<W>) returns (finished: bool)
      requires Valid() && Pristine() && pre == StoresLeft() && TakenFrom(taken, pre)
      modifies this, storage, contextStore, participants, aggregates, aggregates.Repr
      ensures Valid() && aggregates.Grown()
      ensures var r := RunUnit(trigger, oracle, pre, fuel); if finished then EndedAs(r) else r.Unfinished?
    {
      hide RunUnit, StartRejected, RollBack, Commit, Begun, State, StoresLeft, EndedAs, TakenFrom, Opening,
           Underway, Pristine;
      hide Valid, Consistent;
      ValidParts();
      RunUnitEnds(oracle, fuel, pre);
      var rejected := Open(pre);
      if rejected {
        Reject(taken, pre);
        return true;
      }
      finished := Proceed(taken, oracle, fuel, pre);
    }

    /** The instance is there: instantiates the saga class and runs. */
    method Proceed(taken: Snapshots<W>, oracle: Oracle<W>, fuel: nat, ghost pre: Stores<W>) returns (finished: bool)
      requires Valid() && Opening(pre) && queue == [] && TakenFrom(taken, pre) && !StartRejected(trigger, pre.storage)
      modifies this, storage, contextStore, participants, aggregates, aggregates.Repr
      ensures Valid() && aggregates.Grown()
      ensures var r := RunUnit(trigger, oracle, pre, fuel); if finished then EndedAs(r) else r.Unfinished?
    {
      hide RunUnit, StartRejected, RollBack, Commit, Begun, State, StoresLeft, EndedAs, TakenFrom, Opening, Underway;
      hide Valid, Consistent;
      RunUnitEnds(oracle, fuel, pre);
      if trigger.construction.Some? {
        Abandon(taken, pre);
        return true;
      }
      Enqueue(pre);
      finished := Work(taken, oracle, fuel, pre);
    }

    lemma RunUnitEnds(oracle: Oracle<W>, fuel: nat, pre: Stores<W>)
      ensures StartRejected(trigger, pre.storage) ==> RunUnit(trigger, oracle, pre, fuel) == Rejection(pre)
      ensures !StartRejected(trigger, pre.storage) && trigger.construction.Some? ==>
                RunUnit(trigger, oracle, pre, fuel)
                == RollBack(trigger, pre, Begun(trigger, pre), trigger.construction.value)
    {
      hide StartRejected, RollBack, Begun, Drain, Settle;
    }

    method Enqueue(ghost pre: Stores<W>)
      requires Valid() && Opening(pre) && queue == []
      modifies `queue
      ensures Valid() && Underway() && State() == Begun(trigger, pre)
    {
      hide InMemoryAggregateStore.Represents;
      queue := [Pending(trigger.step, trigger.event, None)];
    }

    /** The saga class could not be instantiated: no step ran. */
    method Abandon(taken: Snapshots<W>, ghost pre: Stores<W>)
      requires Valid() && TakenFrom(taken, pre) && Opening(pre) && trigger.construction.Some? && queue == []
      modifies `queue, `cause, `failure, `discarded, `held, `scratch, `objects, storage, participants, aggregates
      ensures Valid() && aggregates.Grown()
      ensures EndedAs(RollBack(trigger, pre, Begun(trigger, pre), trigger.construction.value))
    {
      hide FailureWritten, Undelivered, BaseInstance, StartedInstance, Restored, Enter, Queued, Opened;
      hide InMemoryAggregateStore.Represents, InMemoryAggregateStore.Copies;
      RollbackStarted(taken, trigger.construction.value, pre);
    }

    method Work(taken: Snapshots<W>, oracle: Oracle<W>, fuel: nat, ghost pre: Stores<W>) returns (finished: bool)
      requires Valid() && Underway() && State() == Begun(trigger, pre) && TakenFrom(taken, pre)
      requires !StartRejected(trigger, pre.storage) && trigger.construction.None?
      modifies this, storage, contextStore, participants, aggregates, aggregates.Repr
      ensures Valid() && aggregates.Grown()
      ensures var r := RunUnit(trigger, oracle, pre, fuel); if finished then EndedAs(r) else r.Unfinished?
    {
      hide RunUnit, Drain, StartRejected, Begun, RollBack, Commit, Settle, State, EndedAs, Underway;
      hide Valid, TakenFrom, Extends;
      ValidParts();
      RunUnitWorks(oracle, fuel, pre);
      var thrown;
      finished, thrown := RunStepsBeside(taken, oracle, fuel, pre);
      if finished {
        if thrown.Some? {
          RollbackStarted(taken, thrown.value, pre);
        } else {
          Close(taken, pre, State());
        }
      }
    }

    lemma RunUnitWorks(oracle: Oracle<W>, fuel: nat, pre: Stores<W>)
      requires !StartRejected(trigger, pre.storage) && trigger.construction.None?
      ensures var ran := Drain(EnvOf(trigger), oracle, Begun(trigger, pre), fuel);
        RunUnit(trigger, oracle, pre, fuel) ==
          if ran.StillRunning? then Unfinished
          else if ran.thrown.Some? then RollBack(trigger, pre, ran.unit, ran.thrown.value)
          else
            var settled := Settle(EnvOf(trigger), ran.unit);
            if settled.thrown.Some? then RollBack(trigger, pre, settled.unit, settled.thrown.value)
            else Commit(trigger, settled.unit)
    {
      hide StartRejected, Begun, EnvOf, Drain, Settle, RollBack, Commit;
    }

    lemma CommittedAs(u: Unit<W>)
      requires State() == u && committed && sagaId == Some(EnvOf(trigger).sagaId)
      requires dispatched == [] && discarded == [] && cause.None? && failure.None?
      ensures EndedAs(Commit(trigger, u))
    {
      hide Leave, Undelivered, EnvOf;
    }

    /** Commit at a wait point or an end step, unless the unit of work was marked rollback-only. */
    method Close(taken: Snapshots<W>, ghost pre: Stores<W>, ghost u: Unit<W>)
      requires Valid() && Underway() && State() == u && TakenFrom(taken, pre)
      modifies `committed, `queue, `cause, `failure, `discarded, `held, `scratch, `objects
      modifies storage, participants, aggregates
      ensures Valid() && aggregates.Grown()
      ensures var settled := Settle(env, u);
        EndedAs(if settled.thrown.Some? then RollBack(trigger, pre, settled.unit, settled.thrown.value)
                else Commit(trigger, settled.unit))
    {
      hide RollBack, Commit, EndedAs, Settle, StartedInstance, BaseInstance, Valid, TakenFrom;
      ValidParts();
      var thrown := Conclude();
      if thrown.Some? {
        RollbackStarted(taken, thrown.value, pre);
      } else {
        committed := true;
        CommittedAs(State());
      }
    }

    /** A start that was rejected ran no client code: everything is as it was. */
    method Reject(taken: Snapshots<W>, ghost pre: Stores<W>)
      requires Valid() && Pristine() && pre == StoresLeft() && TakenFrom(taken, pre)
      modifies `queue, `cause, `failure, `discarded, `held, `scratch, `objects, storage, participants, aggregates
      ensures Valid() && aggregates.Grown() && EndedAs(Rejection(pre))
    {
      hide FailureWritten, Valid, TakenFrom, Queued, Enter, Leave, States, Restored, EnvOf, Consistent, WellFormed;
      hide InMemoryAggregateStore.Initially;
      RestoredAtOnce(trigger.copiers, States(aggregates.aggregates));
      Rollback(taken, DUPLICATE, pre);
    }

    /** After commit: hands every recorded event not delivered in-process to the dispatcher. */
    method DispatchPending()
      requires Consistent() && committed && dispatched == []
      modifies `dispatched
      ensures Consistent() && dispatched == Undelivered(recorded, inProcess)
    {
      dispatched := Held();
    }
  }
}
