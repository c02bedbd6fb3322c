/** The harness as the object it is, and what capturing its state and resuming from it means. */
module SagaTestHarness {
  import opened Spi
  import opened AggregateModel
  import opened AggregateStore
  import opened InMemoryStorage
  import opened SagaLifecycle
  import opened UnitOfWork
  import opened HarnessUnitOfWork
  import opened Harness

  // ----- resuming --------------------------------------------------------------------------------------------

  /** Saving the captured instances one by one into a new provider. */
  function Restocked(instances: Instances): Instances {
    if instances == [] then [] else Put(Restocked(instances[..|instances| - 1]), instances[|instances| - 1])
  }

  lemma {:induction false} RestockedIsACopy(instances: Instances)
    requires DistinctIds(instances)
    ensures Restocked(instances) == instances
  {
    if instances != [] {
      var n := |instances| - 1;
      RestockedIsACopy(instances[..n]);
      PutNew(instances[..n], instances[n]);
    }
  }

  /** What a harness rebuilt from the captured stores starts from, given the same client objects and id supply. */
  function Resumed<W>(s: HarnessState<W>): HarnessState<W> {
    s.(stores := s.stores.(storage := Restocked(s.stores.storage)))
  }

  function AndThen<W>(first: Run<W>, second: Run<W>): Run<W> {
    if first.Stuck? || second.Stuck? then Stuck else Run(second.state, first.replies + second.replies)
  }

  lemma {:induction false} ActEachSplit<W>(cfg: Config, a: seq<Action<W>>, b: seq<Action<W>>,
                                               s: HarnessState<W>)
    ensures var first := ActEach(cfg, a, s);
      ActEach(cfg, a + b, s) == if first.Stuck? then Stuck else AndThen(first, ActEach(cfg, b, first.state))
  {
    hide Act;
    var first := ActEach(cfg, a, s);
    if b == [] {
      assert a + b == a;
      if first.Run? {
        assert first.replies + [] == first.replies;
      }
    } else {
      var n := |b| - 1;
      ActEachSplit(cfg, a, b[..n], s);
      assert (a + b)[..|a + b| - 1] == a + b[..n] && (a + b)[|a + b| - 1] == b[n];
    }
  }

  /** Wherever a run is cut between two actions, a harness rebuilt from the captured state goes on just the same. */
  lemma ResumeSimulates<W(!new)>(cfg: Config, a: seq<Action<W>>, b: seq<Action<W>>, s: HarnessState<W>)
    requires ValidConfig(cfg) && Inv(cfg, s)
    ensures var first := ActEach(cfg, a, s);
      first.Run? ==> ActEach(cfg, a + b, s) == AndThen(first, ActEach(cfg, b, Resumed(first.state)))
  {
    hide ActEach;
    ActEachSplit(cfg, a, b, s);
    EveryReachableState(cfg, a, s);
    var first := ActEach(cfg, a, s);
    if first.Run? {
      RestockedIsACopy(first.state.stores.storage);
    }
  }

  /** Copying is only the identity because no two stored instances share an id. */
  lemma RestockedNeedsDistinctIds(instances: Instances)
    ensures Restocked(instances) == instances <==> DistinctIds(instances)
  {
    RestockedDistinct(instances);
    if DistinctIds(instances) {
      RestockedIsACopy(instances);
    }
  }

  lemma {:induction false} RestockedDistinct(instances: Instances)
    ensures DistinctIds(Restocked(instances))
  {
    if instances != [] {
      var n := |instances| - 1;
      RestockedDistinct(instances[..n]);
      PutDistinct(Restocked(instances[..n]), instances[n]);
    }
  }

  /** What a harness has persisted; its aggregate store is a private copy. */
  class PersistedState {
    const instances: Instances
    const contextRecords: Contexts
    const aggregates: InMemoryAggregateStore

    ghost predicate Valid()
      reads aggregates
    {
      aggregates.Valid() && aggregates.Keyed()
    }

    constructor (instances: Instances, contextRecords: Contexts, aggregates: InMemoryAggregateStore)
      requires aggregates.Valid() && aggregates.Keyed()
      ensures Valid() && this.instances == instances && this.contextRecords == contextRecords
      ensures fresh(this.aggregates) && CopyOf(aggregates, this.aggregates) && FreshCopies(this.aggregates)
    {
      var copy := aggregates.Copy();
      this.instances, this.contextRecords, this.aggregates := instances, contextRecords, copy;
    }

    method NewStorage() returns (storage: InMemoryStorageProvider)
      ensures fresh(storage) && storage.instances == Restocked(instances)
    {
      storage := new InMemoryStorageProvider();
      for i := 0 to |instances|
        invariant fresh(storage) && storage.instances == Restocked(instances[..i])
      {
        assert instances[..i + 1][..i] == instances[..i];
        storage.Save(instances[i]);
      }
      assert instances[..|instances|] == instances;
    }

    method NewContextStore() returns (contextStore: SagaContextStore)
      ensures fresh(contextStore) && contextStore.records == contextRecords
    {
      contextStore := new SagaContextStore(contextRecords);
    }

    /** A copy of the copy, so that any number of harnesses can be rebuilt from this. */
    method NewAggregateStore() returns (store: InMemoryAggregateStore)
      requires Valid()
      ensures fresh(store) && CopyOf(aggregates, store) && FreshCopies(store)
    {
      store := aggregates.Copy();
    }
  }

  /** Equal states under the same keys; the very aggregate where there is no copier, another one where there is. */
  ghost predicate CopyOf(original: InMemoryAggregateStore, copy: InMemoryAggregateStore)
    reads original, copy, original.aggregates.Values, copy.aggregates.Values
  {
    && copy.Valid() && copy.Keyed() && copy.copiers == original.copiers && copy.Repr == copy.aggregates.Values
    && States(copy.aggregates) == States(original.aggregates) && copy.aggregates.Keys == original.aggregates.Keys
    && forall k <- copy.aggregates :: k.0 !in copy.copiers ==> copy.aggregates[k] == original.aggregates[k]
  }

  twostate predicate FreshCopies(new store: InMemoryAggregateStore)
    reads store
  {
    forall k <- store.aggregates :: k.0 in store.copiers ==> fresh(store.aggregates[k])
  }

  // ----- the harness -----------------------------------------------------------------------------------------

  function AppendedTo<W>(reports: seq<Report<W>>, reply: Reply<W>): Reply<W> {
    if reply.Reports? then Reports(reply.state, reports + reply.reports) else reply
  }

  class SagaTestHarness<W> {
    const cfg: Config
    const storage: InMemoryStorageProvider
    const contextStore: SagaContextStore
    const participants: Participants<W>
    const gateway: HarnessCommandGateway
    const aggregates: InMemoryAggregateStore
    var nextId: nat

    ghost predicate Valid()
      reads gateway, aggregates
    {
      && gateway.routes == cfg.routes
      && aggregates.Valid() && aggregates.Keyed() && aggregates.copiers == cfg.copiers
    }

    function State(): HarnessState<W>
      reads this, storage, contextStore, participants, aggregates, aggregates.aggregates.Values
    {
      HarnessState(Stores(storage.instances, contextStore.records, participants.state, States(aggregates.aggregates)),
                   nextId)
    }

    constructor (cfg: Config, storage: InMemoryStorageProvider, contextStore: SagaContextStore,
                 participants: Participants<W>, gateway: HarnessCommandGateway,
                 aggregates: InMemoryAggregateStore, nextId: nat)
      requires gateway.routes == cfg.routes
      requires aggregates.Valid() && aggregates.Keyed() && aggregates.copiers == cfg.copiers
      ensures Valid() && this.cfg == cfg && this.storage == storage && this.contextStore == contextStore
      ensures this.participants == participants && this.gateway == gateway && this.nextId == nextId
      ensures this.aggregates == aggregates
    {
      this.cfg, this.storage, this.contextStore := cfg, storage, contextStore;
      this.participants, this.gateway, this.nextId, this.aggregates := participants, gateway, nextId, aggregates;
    }

    /** A unit of work, and what the dispatch of its events delivers again before it returns. */
    method RunUnitOfWork(d: Delivery<W>, model: SagaModel, existing: Option<SagaInstance>, value: string)
      returns (reply: Reply<W>)
      requires Valid() && d.event.className in model.steps
      modifies `nextId, storage, contextStore, participants, aggregates, aggregates.Repr
      ensures Valid() && aggregates.Grown()
      ensures reply == RunUnitFor(cfg, d, model, existing, value, old(State()), Again(cfg, d))
      ensures !reply.NeverReturns? ==> State() == reply.state
      decreases d.depth, 1
    {
      hide RunUnit, States, RedeliverEach, Again;
      var trigger := TriggerFor(cfg, d, model, existing, value, nextId);
      var result := Conduct(trigger, d.clients(model), d.fuel);
      if result.Unfinished? {
        return NeverReturns;
      }
      if existing.None? && result.sagaId.Some? {
        nextId := nextId + 1;
      }
      var dispatched := Redeliver(d, if cfg.redeliver then result.dispatched else []);
      reply := if dispatched.Reports? then Reports(dispatched.state, [UnitRan(model.sagaType, result)]) else dispatched;
    }

    /** The dispatcher's listener: each event is delivered, as a whole, before the next one is dispatched. */
    method Redeliver(d: Delivery<W>, events: seq<Event>) returns (reply: Reply<W>)
      requires Valid()
      modifies `nextId, storage, contextStore, participants, aggregates, aggregates.Repr
      ensures Valid() && aggregates.Grown() && reply == RedeliverEach(events, old(State()), Again(cfg, d))
      ensures !reply.NeverReturns? ==> State() == reply.state
      decreases d.depth, 0
    {
      hide DeliverAll, State;
      for i := 0 to |events|
        invariant Valid() && aggregates.Grown()
        invariant RedeliverEach(events, old(State()), Again(cfg, d)) ==
                    RedeliverEach(events[i..], State(), Again(cfg, d))
      {
        ghost var rest := events[i..];
        assert rest[0] == events[i] && rest[1..] == events[i + 1..];
        if d.depth == 0 {
          return NeverReturns;
        }
        var one := Deliver(d.(event := events[i], depth := d.depth - 1));
        if !one.Reports? {
          return one;
        }
      }
      reply := Reports(State(), []);
    }

    /** One unit of work over this harness' stores, dispatching what it left to dispatch if it committed. */
    method Conduct(trigger: Trigger, oracle: Oracle<W>, fuel: nat) returns (result: Result<W>)
      requires Valid() && trigger.routes == cfg.routes && trigger.copiers == cfg.copiers
      modifies storage, contextStore, participants, aggregates, aggregates.Repr
      ensures Valid() && aggregates.Grown() && result == RunUnit(trigger, oracle, old(State().stores), fuel)
      ensures result.Result? ==> State().stores == result.stores
    {
      hide RunUnit, States, HarnessUnitOfWork.Valid;
      var lifecycle := new HarnessSagaLifecycle(storage, trigger.now);
      var unit := new HarnessUnitOfWork<W>(trigger, gateway, storage, lifecycle, contextStore, participants,
                                           aggregates);
      result := unit.RunAndDispatch(oracle, fuel);
    }

    method DeliverToEach(d: Delivery<W>, model: SagaModel, value: string, found: Instances) returns (reply: Reply<W>)
      requires Valid() && d.event.className in model.steps
      modifies `nextId, storage, contextStore, participants, aggregates, aggregates.Repr
      ensures Valid() && aggregates.Grown()
      ensures reply == RunForEach(cfg, d, model, value, found, old(State()), Again(cfg, d))
      ensures !reply.NeverReturns? ==> State() == reply.state
      decreases d.depth, 2
    {
      hide RunUnitFor, Find, Again;
      var reports: seq<Report<W>> := [];
      for i := 0 to |found|
        invariant Valid() && aggregates.Grown()
        invariant RunForEach(cfg, d, model, value, found, old(State()), Again(cfg, d)) ==
            AppendedTo(reports, RunForEach(cfg, d, model, value, found[i..], State(), Again(cfg, d)))
      {
        ghost var rest := found[i..];
        assert rest[0] == found[i] && rest[1..] == found[i + 1..];
        var instance := storage.FindById(found[i].sagaId);
        var one: Reply<W>;
        if instance.None? {
          one := Reports(State(), [Unmatched(model.sagaType)]);
        } else if Terminal(instance.value.status) {
          one := Reports(State(), [Unexpected(model.sagaType, instance.value.sagaId)]);
        } else {
          one := RunUnitOfWork(d, model, instance, value);
        }
        if !one.Reports? {
          return one;
        }
        AppendedTwice(reports, one.reports, RunForEach(cfg, d, model, value, found[i + 1..], State(), Again(cfg, d)));
        reports := reports + one.reports;
      }
      reply := Reports(State(), reports);
    }

    lemma AppendedTwice(a: seq<Report<W>>, b: seq<Report<W>>, reply: Reply<W>)
      ensures AppendedTo(a, AppendedTo(b, reply)) == AppendedTo(a + b, reply)
    {
    }

    method DeliverToSaga(d: Delivery<W>, model: SagaModel) returns (reply: Reply<W>)
      requires Valid() && d.event.className in model.steps
      modifies `nextId, storage, contextStore, participants, aggregates, aggregates.Repr
      ensures Valid() && aggregates.Grown() && reply == DeliverTo(cfg, d, model, old(State()), Again(cfg, d))
      ensures !reply.NeverReturns? ==> State() == reply.state
      decreases d.depth, 3
    {
      hide RunUnitFor, RunForEach, Matching, Find, Again, States, OfType, ActiveOnly;
      var step := model.steps[d.event.className];
      if !HasValue(d.event, step) {
        return Refused(State());
      }
      var value := ValueOf(d.event, step);
      if step.start {
        reply := RunUnitOfWork(d, model, None, value);
        return;
      }
      var matches := storage.FindByAssociation(step.associationProperty, value);
      var correlated := OfType(matches, model.sagaType);
      var active := ActiveOnly(correlated);
      if active != [] {
        reply := DeliverToEach(d, model, value, active);
      } else if correlated != [] {
        reply := Reports(State(), [Unexpected(model.sagaType, correlated[|correlated| - 1].sagaId)]);
      } else {
        reply := Reports(State(), [Unmatched(model.sagaType)]);
      }
    }

    method Deliver(d: Delivery<W>) returns (reply: Reply<W>)
      requires Valid()
      modifies `nextId, storage, contextStore, participants, aggregates, aggregates.Repr
      ensures Valid() && aggregates.Grown() && reply == DeliverAll(cfg, d, old(State()))
      ensures !reply.NeverReturns? ==> State() == reply.state
      decreases d.depth, 4
    {
      hide DeliverTo, Again;
      if !d.event.annotated {
        return Refused(State());
      }
      var reports: seq<Report<W>> := [];
      for i := 0 to |cfg.sagas|
        invariant Valid() && aggregates.Grown()
        invariant DeliverToSagas(cfg, d, cfg.sagas, old(State()), Again(cfg, d)) ==
            AppendedTo(reports, DeliverToSagas(cfg, d, cfg.sagas[i..], State(), Again(cfg, d)))
      {
        ghost var rest := cfg.sagas[i..];
        assert rest[0] == cfg.sagas[i] && rest[1..] == cfg.sagas[i + 1..];
        if d.event.className in cfg.sagas[i].steps {
          var one := DeliverToSaga(d, cfg.sagas[i]);
          if !one.Reports? {
            return one;
          }
          AppendedTwice(reports, one.reports,
                        DeliverToSagas(cfg, d, cfg.sagas[i + 1..], State(), Again(cfg, d)));
          reports := reports + one.reports;
        }
      }
      if reports == [] {
        reports := [Ignored];
      }
      reply := Reports(State(), reports);
    }

    // ----- resuming ------------------------------------------------------------------------------------------

    method Perform(action: Action<W>) returns (reply: Reply<W>)
      requires Valid()
      modifies `nextId, storage, contextStore, participants, aggregates, aggregates.Repr
      ensures Valid() && aggregates.Grown() && reply == Act(cfg, action, old(State()))
      ensures !reply.NeverReturns? ==> State() == reply.state
    {
      hide DeliverAll;
      match action
      case Arrives(d) =>
        reply := Deliver(d);
      case Uses(ops) =>
        ghost var objects;
        var held;
        held, objects := Use(ops);
        reply := Reports(State(), []);
    }

    /** Client code at work on the aggregates, outside any unit of work. */
    method Use(ops: seq<Op>) returns (held: seq<Aggregate>, ghost objects: map<ObjectName, Aggregate>)
      requires Valid()
      modifies aggregates, aggregates.Repr
      ensures Valid() && aggregates.Grown() && State() == Used(old(State()), ops)
      ensures Extends(old(aggregates.Initially()), objects)
      ensures aggregates.Represents(RunOps(Enter(old(States(aggregates.aggregates))), ops), objects, held)
    {
      hide RunOps, Enter, Leave, States, InMemoryAggregateStore.Represents, InMemoryAggregateStore.Initially;
      ghost var s := Enter(States(aggregates.aggregates));
      aggregates.InitiallyRepresents();
      held, objects := aggregates.Work(ops, [], s, aggregates.Initially());
      aggregates.RepresentsStates(RunOps(s, ops), objects, held);
    }

    method PerformEach(actions: seq<Action<W>>) returns (finished: bool, replies: seq<Reply<W>>)
      requires Valid()
      modifies `nextId, storage, contextStore, participants, aggregates, aggregates.Repr
      ensures Valid() && aggregates.Grown()
      ensures ActEach(cfg, actions, old(State())) == if finished then Run(State(), replies) else Stuck
    {
      hide Act, State;
      replies := [];
      for i := 0 to |actions|
        invariant Valid() && aggregates.Grown()
        invariant ActEach(cfg, actions[..i], old(State())) == Run(State(), replies)
      {
        assert actions[..i + 1][..i] == actions[..i];
        var reply := Perform(actions[i]);
        if reply.NeverReturns? {
          StuckStays(cfg, actions, i + 1, old(State()));
          return false, [];
        }
        replies := replies + [reply];
      }
      assert actions[..|actions|] == actions;
      finished := true;
    }

    lemma {:induction false} StuckStays(cfg: Config, actions: seq<Action<W>>, n: nat, s: HarnessState<W>)
      requires n <= |actions| && ActEach(cfg, actions[..n], s).Stuck?
      ensures ActEach(cfg, actions, s).Stuck?
    {
      var m := |actions| - 1;
      if n <= m {
        assert actions[..m][..n] == actions[..n];
        StuckStays(cfg, actions[..m], n, s);
      } else {
        assert actions[..n] == actions;
      }
    }

    /** persistedState(): the stored instances, the context records and a copy of the aggregates. */
    method Persisted() returns (captured: PersistedState)
      requires Valid()
      ensures fresh(captured) && captured.Valid()
      ensures captured.instances == storage.instances && captured.contextRecords == contextStore.records
      ensures fresh(captured.aggregates) && CopyOf(aggregates, captured.aggregates) && FreshCopies(captured.aggregates)
    {
      captured := new PersistedState(storage.instances, contextStore.records, aggregates);
    }

    /** A harness with stores of its own, built from captured state around the same client objects. */
    method FromPersistedState(captured: PersistedState) returns (resumed: SagaTestHarness<W>)
      requires Valid() && captured.Valid() && captured.aggregates.copiers == cfg.copiers
      ensures resumed.Valid() && resumed.cfg == cfg && resumed.participants == participants
      ensures resumed.gateway == gateway && resumed.nextId == nextId
      ensures fresh(resumed) && fresh(resumed.storage) && fresh(resumed.contextStore) && fresh(resumed.aggregates)
      ensures resumed.storage.instances == Restocked(captured.instances)
      ensures resumed.contextStore.records == captured.contextRecords
      ensures CopyOf(captured.aggregates, resumed.aggregates) && FreshCopies(resumed.aggregates)
    {
      var storage := captured.NewStorage();
      var contextStore := captured.NewContextStore();
      var aggregates := captured.NewAggregateStore();
      resumed := new SagaTestHarness<W>(cfg, storage, contextStore, participants, gateway, aggregates, nextId);
    }

    /** Captured and rebuilt, in a state that equals this one's and with nothing but uncopied aggregates in common. */
    method Rebuild() returns (captured: PersistedState, resumed: SagaTestHarness<W>)
      requires Valid() && ValidConfig(cfg) && Inv(cfg, State())
      ensures fresh(resumed) && resumed.Valid() && resumed.cfg == cfg && resumed.participants == participants
      ensures resumed.State() == State()
      ensures fresh(resumed.storage) && fresh(resumed.contextStore) && fresh(resumed.aggregates)
      ensures captured.instances == storage.instances && captured.contextRecords == contextStore.records
      ensures fresh(captured.aggregates) && Beside(captured, resumed, States(aggregates.aggregates))
      ensures forall a <- resumed.aggregates.Repr :: fresh(a) || a in aggregates.Shared()
      ensures forall k <- aggregates.aggregates :: k.0 !in cfg.copiers ==>
                k in resumed.aggregates.aggregates && resumed.aggregates.aggregates[k] == aggregates.aggregates[k]
    {
      RestockedIsACopy(storage.instances);
      captured := Persisted();
      resumed := FromPersistedState(captured);
    }

    /**
     * Captures this harness, rebuilds another from the capture and goes on there: it replies, and ends, as this one
     * would have, while this one and the capture stay as they were, but for aggregates without a copier.
     */
    method Resume(actions: seq<Action<W>>)
      returns (captured: PersistedState, resumed: SagaTestHarness<W>, finished: bool, replies: seq<Reply<W>>)
      requires Valid() && ValidConfig(cfg) && Inv(cfg, State())
      modifies participants, aggregates.Shared()
      ensures fresh(resumed) && resumed.Valid()
      ensures ActEach(cfg, actions, old(State())) == if finished then Run(resumed.State(), replies) else Stuck
      ensures storage.instances == old(storage.instances) && captured.instances == old(storage.instances)
      ensures contextStore.records == old(contextStore.records)
      ensures captured.contextRecords == old(contextStore.records)
      ensures Keeps(aggregates, old(States(aggregates.aggregates)))
      ensures Keeps(captured.aggregates, old(States(aggregates.aggregates)))
      ensures var before := old(States(aggregates.aggregates));
        AllCopied(before) ==> States(aggregates.aggregates) == before == States(captured.aggregates.aggregates)
    {
      hide ActEach, Inv, ValidConfig, State, Keeps, OutOfReach, States, Beside, AllCopied;
      ghost var before := States(aggregates.aggregates);
      captured, resumed := Rebuild();
      finished, replies := ResumeIn(captured, resumed, actions, before);
    }

    /** Client code keeps every reference it gets in the rebuilt harness; it never gets at this one or the capture. */
    method ResumeBesideClients(rounds: seq<Round<W>>) returns (captured: PersistedState)
      requires Valid() && ValidConfig(cfg) && Inv(cfg, State())
      modifies participants, aggregates.Shared()
      ensures storage.instances == old(storage.instances) && captured.instances == old(storage.instances)
      ensures contextStore.records == old(contextStore.records)
      ensures captured.contextRecords == old(contextStore.records)
      ensures Keeps(aggregates, old(States(aggregates.aggregates)))
      ensures Keeps(captured.aggregates, old(States(aggregates.aggregates)))
      ensures var before := old(States(aggregates.aggregates));
        AllCopied(before) ==> States(aggregates.aggregates) == before == States(captured.aggregates.aggregates)
    {
      hide ActEach, Inv, ValidConfig, State, Keeps, OutOfReach, States;
      var resumed;
      captured, resumed := Rebuild();
      ghost var before := States(aggregates.aggregates);
      RoundsBeside(captured, resumed, rounds, before);
      KeptBeside(captured, resumed, before);
    }

    method RoundsBeside(captured: PersistedState, resumed: SagaTestHarness<W>, rounds: seq<Round<W>>,
                        ghost before: AggregateStates)
      requires resumed.Valid() && resumed.cfg == cfg && resumed.participants == participants
      requires Beside(captured, resumed, before)
      modifies resumed`nextId, resumed.storage, resumed.contextStore, participants
      modifies resumed.aggregates, resumed.aggregates.Repr
      ensures Beside(captured, resumed, before)
    {
      hide ActEach, State, Beside;
      var held: seq<Aggregate> := [];
      for i := 0 to |rounds|
        invariant resumed.Valid() && resumed.aggregates.Grown() && Beside(captured, resumed, before)
        invariant forall a <- held :: a in resumed.aggregates.Repr
      {
        held := RoundBeside(captured, resumed, rounds[i], held, before);
      }
    }

    /** Every aggregate is there, and as it was if its type has a copier. */
    ghost predicate Keeps(store: InMemoryAggregateStore, before: AggregateStates)
      reads store, store.aggregates.Values
    {
      && store.aggregates.Keys == before.Keys && store.copiers == cfg.copiers
      && forall k <- store.aggregates :: k.0 in cfg.copiers ==> store.aggregates[k].state == before[k]
    }

    ghost predicate AllCopied(before: AggregateStates) {
      forall k <- before :: k.0 in cfg.copiers
    }

    /** With a copier for every stored type, nothing changed. */
    lemma CopiedKeepsAll(store: InMemoryAggregateStore, before: AggregateStates)
      requires Keeps(store, before) && AllCopied(before)
      ensures States(store.aggregates) == before
    {
    }

    /** No aggregate of the store whose type has a copier is, or was, in the harness' own. */
    ghost predicate OutOfReach(store: InMemoryAggregateStore, resumed: SagaTestHarness<W>)
      reads store, resumed.aggregates
    {
      && store != resumed.aggregates
      && forall k <- store.aggregates :: k.0 in cfg.copiers ==> store.aggregates[k] !in resumed.aggregates.Repr
    }

    /** This harness and the capture are as they were, and out of reach of the rebuilt one. */
    ghost predicate Beside(captured: PersistedState, resumed: SagaTestHarness<W>, before: AggregateStates)
      reads aggregates, captured.aggregates, resumed.aggregates
      reads aggregates.aggregates.Values, captured.aggregates.aggregates.Values
    {
      && OutOfReach(aggregates, resumed) && OutOfReach(captured.aggregates, resumed)
      && Keeps(aggregates, before) && Keeps(captured.aggregates, before)
    }

    lemma KeptBeside(captured: PersistedState, resumed: SagaTestHarness<W>, before: AggregateStates)
      requires Beside(captured, resumed, before)
      ensures Keeps(aggregates, before) && Keeps(captured.aggregates, before)
      ensures AllCopied(before) ==>
                States(aggregates.aggregates) == before && States(captured.aggregates.aggregates) == before
    {
      hide Keeps, States;
      if AllCopied(before) {
        CopiedKeepsAll(aggregates, before);
        CopiedKeepsAll(captured.aggregates, before);
      }
    }

    method PerformBeside(captured: PersistedState, resumed: SagaTestHarness<W>, actions: seq<Action<W>>,
                         ghost before: AggregateStates)
      returns (finished: bool, replies: seq<Reply<W>>)
      requires resumed.Valid() && resumed.cfg == cfg && resumed.participants == participants
      requires Beside(captured, resumed, before)
      modifies resumed`nextId, resumed.storage, resumed.contextStore, participants
      modifies resumed.aggregates, resumed.aggregates.Repr
      ensures resumed.Valid() && resumed.aggregates.Grown() && Beside(captured, resumed, before)
      ensures ActEach(cfg, actions, old(resumed.State())) == if finished then Run(resumed.State(), replies) else Stuck
    {
      hide ActEach, State;
      finished, replies := resumed.PerformEach(actions);
    }

    method ResumeIn(captured: PersistedState, resumed: SagaTestHarness<W>, actions: seq<Action<W>>,
                    ghost before: AggregateStates)
      returns (finished: bool, replies: seq<Reply<W>>)
      requires resumed.Valid() && resumed.cfg == cfg && resumed.participants == participants
      requires Beside(captured, resumed, before)
      modifies resumed`nextId, resumed.storage, resumed.contextStore, participants
      modifies resumed.aggregates, resumed.aggregates.Repr
      ensures resumed.Valid() && Keeps(aggregates, before) && Keeps(captured.aggregates, before)
      ensures AllCopied(before) ==> States(aggregates.aggregates) == before == States(captured.aggregates.aggregates)
      ensures ActEach(cfg, actions, old(resumed.State())) == if finished then Run(resumed.State(), replies) else Stuck
    {
      hide ActEach, State, Beside, States, AllCopied;
      finished, replies := PerformBeside(captured, resumed, actions, before);
      KeptBeside(captured, resumed, before);
    }

    method RoamBeside(captured: PersistedState, resumed: SagaTestHarness<W>, ops: seq<Op>, held: seq<Aggregate>,
                      ghost before: AggregateStates)
      returns (held': seq<Aggregate>)
      requires resumed.Valid() && Beside(captured, resumed, before) && forall a <- held :: a in resumed.aggregates.Repr
      modifies resumed.aggregates, resumed.aggregates.Repr
      ensures resumed.Valid() && resumed.aggregates.Grown() && Beside(captured, resumed, before)
      ensures forall a <- held' :: a in resumed.aggregates.Repr
    {
      held' := resumed.aggregates.Roam(ops, held);
    }

    method RoundBeside(captured: PersistedState, resumed: SagaTestHarness<W>, round: Round<W>, held: seq<Aggregate>,
                       ghost before: AggregateStates)
      returns (held': seq<Aggregate>)
      requires resumed.Valid() && resumed.cfg == cfg && resumed.participants == participants
      requires Beside(captured, resumed, before) && forall a <- held :: a in resumed.aggregates.Repr
      modifies resumed`nextId, resumed.storage, resumed.contextStore, participants
      modifies resumed.aggregates, resumed.aggregates.Repr
      ensures resumed.Valid() && resumed.aggregates.Grown() && Beside(captured, resumed, before)
      ensures forall a <- held' :: a in resumed.aggregates.Repr
    {
      hide ActEach, State, Beside;
      var finished, replies := PerformBeside(captured, resumed, [round.action], before);
      held' := RoamBeside(captured, resumed, round.ops, held, before);
    }

    /** Where there is no copier, what client code does in the rebuilt harness is done in this one too. */
    method ResumedChangesUncopied(key: Key, state: string) returns (resumed: SagaTestHarness<W>)
      requires Valid() && ValidConfig(cfg) && Inv(cfg, State())
      requires key in aggregates.aggregates && key.0 !in cfg.copiers
      modifies aggregates.Shared()
      ensures aggregates.aggregates == old(aggregates.aggregates) && aggregates.aggregates[key].state == state
      ensures resumed.State() == Used(old(State()), ChangesInPlace(key, state))
    {
      hide Inv, ValidConfig, States, State, Beside;
      var captured;
      captured, resumed := Rebuild();
      resumed.MutateStored(key, state);
    }

    /** Client code changes a stored aggregate in place. */
    method MutateStored(key: Key, state: string)
      requires Valid() && key in aggregates.aggregates
      modifies aggregates, aggregates.Repr
      ensures Valid() && old(aggregates.aggregates[key]).state == state
      ensures State() == Used(old(State()), ChangesInPlace(key, state))
    {
      hide State, RunOps, ChangesInPlace, WellFormed, NamesOk, StoredOk, HeldOk;
      ChangedInPlace(Enter(States(aggregates.aggregates)), key, state);
      ghost var objects;
      var held;
      held, objects := Use(ChangesInPlace(key, state));
      assert objects[Stored(key)] == old(aggregates.Initially())[Stored(key)];
    }
  }

  datatype Round<!W> = Round(action: Action<W>, ops: seq<Op>)
}
