/** Delivering events to every saga type of a harness, as a function of the stores and of what client code does. */
module Harness {
  import opened Spi
  import opened AggregateModel
  import opened InMemoryStorage
  import opened SagaLifecycle
  import opened UnitOfWork
  import opened UnitGuarantees
  import opened UnitOutcomes

  /**
   * The registered saga types, in registration order, the command routes, the supply of saga ids, the aggregate types
   * with a copier, and whether what a unit of work dispatches is delivered again.
   */
  datatype Config = Config(
    sagas: seq<SagaModel>, routes: map<string, Route>, ids: nat -> SagaId, copiers: set<string>, redeliver: bool)

  /** nextId counts the saga ids taken from the supply so far. */
  datatype HarnessState<W> = HarnessState(stores: Stores<W>, nextId: nat)

  /**
   * One event from the transport, or published outside a unit of work, and what the sagas' code does with it and with
   * whatever is delivered again because of it; depth bounds how deep those deliveries may nest, as fuel bounds steps.
   */
  datatype Delivery<!W> = Delivery(
    event: Event, now: int, clients: SagaModel -> Oracle<W>, construction: (SagaModel, Event) -> Option<Cause>,
    fuel: nat, depth: nat)

  datatype Report<W> =
    | UnitRan(sagaType: string, result: Result<W>)
    | Unexpected(sagaType: string, sagaId: SagaId)
    | Unmatched(sagaType: string)
    | Ignored

  /**
   * Refused: the exception where a value to correlate by is missing or cannot be read, in this delivery or in one
   * nested in it; NeverReturns: a unit of work that fuel steps, or nesting that depth deliveries, did not end.
   */
  datatype Reply<W> =
    | Reports(state: HarnessState<W>, reports: seq<Report<W>>)
    | Refused(state: HarnessState<W>)
    | NeverReturns

  /** What delivering an event again does. */
  type Redelivery<!W> = (Event, HarnessState<W>) -> Reply<W>

  function TriggerFor<W>(cfg: Config, d: Delivery<W>, model: SagaModel, existing: Option<SagaInstance>, value: string,
                         nextId: nat): Trigger
    requires d.event.className in model.steps
  {
    Trigger(model, cfg.routes, model.steps[d.event.className], d.event, existing, value, cfg.ids(nextId), d.now,
            d.construction(model, d.event), cfg.copiers)
  }

  /** The events of one unit of work, delivered again one after the other; an exception ends it all. */
  function RedeliverEach<W>(events: seq<Event>, s: HarnessState<W>, again: Redelivery<W>): Reply<W> {
    if events == [] then Reports(s, [])
    else
      var first := again(events[0], s);
      if first.Reports? then RedeliverEach(events[1..], first.state, again) else first
  }

  /** A started instance takes an id from the supply, a rejected start does not. */
  function AfterUnit<W>(existing: Option<SagaInstance>, result: Result<W>, s: HarnessState<W>): HarnessState<W>
    requires result.Result?
  {
    HarnessState(result.stores, s.nextId + (if existing.None? && result.sagaId.Some? then 1 else 0))
  }

  /** A unit of work, and, nested in its dispatch, what is delivered again. */
  function RunUnitFor<W>(cfg: Config, d: Delivery<W>, model: SagaModel, existing: Option<SagaInstance>, value: string,
                         s: HarnessState<W>, again: Redelivery<W>): Reply<W>
    requires d.event.className in model.steps
  {
    var result := RunUnit(TriggerFor(cfg, d, model, existing, value, s.nextId), d.clients(model), s.stores, d.fuel);
    if result.Unfinished? then NeverReturns
    else
      var dispatched :=
        RedeliverEach(if cfg.redeliver then result.dispatched else [], AfterUnit(existing, result, s), again);
      if dispatched.Reports? then Reports(dispatched.state, [UnitRan(model.sagaType, result)]) else dispatched
  }

  /** The active instances found, one after the other, each read again just before its unit of work. */
  function RunForEach<W>(cfg: Config, d: Delivery<W>, model: SagaModel, value: string, found: Instances,
                         s: HarnessState<W>, again: Redelivery<W>): Reply<W>
    requires d.event.className in model.steps
  {
    if found == [] then Reports(s, [])
    else
      var instance := Find(s.stores.storage, found[0].sagaId);
      var first :=
        if instance.None? then Reports(s, [Unmatched(model.sagaType)])
        else if Terminal(instance.value.status) then Reports(s, [Unexpected(model.sagaType, instance.value.sagaId)])
        else RunUnitFor(cfg, d, model, instance, value, s, again);
      if !first.Reports? then first
      else
        var rest := RunForEach(cfg, d, model, value, found[1..], first.state, again);
        if rest.Reports? then Reports(rest.state, first.reports + rest.reports) else rest
  }

  function OfType(s: Instances, sagaType: string): (r: Instances)
    ensures forall x :: x in r <==> x in s && x.sagaType == sagaType
  {
    if s == [] then [] else (if s[0].sagaType == sagaType then [s[0]] else []) + OfType(s[1..], sagaType)
  }

  function ActiveOnly(s: Instances): (r: Instances)
    ensures forall x :: x in r <==> x in s && Active(x)
  {
    if s == [] then [] else (if Active(s[0]) then [s[0]] else []) + ActiveOnly(s[1..])
  }

  function Correlated(s: Instances, model: SagaModel, step: Step, value: string): Instances {
    OfType(Matching(s, step.associationProperty, value), model.sagaType)
  }

  /** The event has a value to correlate by: the property is there, not null, and its accessor does not throw. */
  predicate HasValue(event: Event, step: Step) {
    step.associationProperty in event.properties && event.properties[step.associationProperty].ReadsAs?
  }

  function ValueOf(event: Event, step: Step): string
    requires HasValue(event, step)
  {
    event.properties[step.associationProperty].value
  }

  function DeliverTo<W>(cfg: Config, d: Delivery<W>, model: SagaModel, s: HarnessState<W>, again: Redelivery<W>)
    : Reply<W>
    requires d.event.className in model.steps
  {
    var step := model.steps[d.event.className];
    if !HasValue(d.event, step) then Refused(s)
    else
      var value := ValueOf(d.event, step);
      if step.start then RunUnitFor(cfg, d, model, None, value, s, again)
      else
        var correlated := Correlated(s.stores.storage, model, step, value);
        var active := ActiveOnly(correlated);
        if active != [] then RunForEach(cfg, d, model, value, active, s, again)
        else if correlated != [] then Reports(s, [Unexpected(model.sagaType, correlated[|correlated| - 1].sagaId)])
        else Reports(s, [Unmatched(model.sagaType)])
  }

  /** Every saga type with a step for the event's class, in order; what was done before a refusal stays done. */
  function DeliverToSagas<W>(cfg: Config, d: Delivery<W>, sagas: seq<SagaModel>, s: HarnessState<W>,
                             again: Redelivery<W>): Reply<W>
  {
    if sagas == [] then Reports(s, [])
    else if d.event.className !in sagas[0].steps then DeliverToSagas(cfg, d, sagas[1..], s, again)
    else
      var first := DeliverTo(cfg, d, sagas[0], s, again);
      if !first.Reports? then first
      else
        var rest := DeliverToSagas(cfg, d, sagas[1..], first.state, again);
        if rest.Reports? then Reports(rest.state, first.reports + rest.reports) else rest
  }

  function DeliverAll<W>(cfg: Config, d: Delivery<W>, s: HarnessState<W>): Reply<W>
    decreases d.depth, 1
  {
    if !d.event.annotated then Refused(s)
    else
      var reply := DeliverToSagas(cfg, d, cfg.sagas, s, Again(cfg, d));
      if reply.Reports? && reply.reports == [] then Reports(reply.state, [Ignored]) else reply
  }

  /** Delivering again is delivering, one level deeper. */
  function Again<W>(cfg: Config, d: Delivery<W>): Redelivery<W>
    decreases d.depth, 0
  {
    (event: Event, s: HarnessState<W>) =>
      if d.depth == 0 then NeverReturns else DeliverAll(cfg, d.(event := event, depth := d.depth - 1), s)
  }

  /** What happens to a harness: an event arrives, or client code works on the aggregates between deliveries. */
  datatype Action<!W> = Arrives(delivery: Delivery<W>) | Uses(ops: seq<Op>)

  function Act<W>(cfg: Config, action: Action<W>, s: HarnessState<W>): Reply<W> {
    match action
    case Arrives(d) => DeliverAll(cfg, d, s)
    case Uses(ops) => Reports(Used(s, ops), [])
  }

  function Used<W>(s: HarnessState<W>, ops: seq<Op>): HarnessState<W> {
    s.(stores := s.stores.(aggregates := Leave(RunOps(Enter(s.stores.aggregates), ops))))
  }

  /** A run of the harness: the replies to a sequence of actions, up to a delivery that never returns. */
  datatype Run<W> = Run(state: HarnessState<W>, replies: seq<Reply<W>>) | Stuck

  function ActEach<W>(cfg: Config, actions: seq<Action<W>>, s: HarnessState<W>): Run<W> {
    if actions == [] then Run(s, [])
    else
      var before := ActEach(cfg, actions[..|actions| - 1], s);
      if before.Stuck? then Stuck
      else
        var reply := Act(cfg, actions[|actions| - 1], before.state);
        if reply.NeverReturns? then Stuck else Run(reply.state, before.replies + [reply])
  }

  // ----- what every reachable state satisfies ----------------------------------------------------------------

  /** Distinct active instances of one saga type agree on no association. */
  predicate NoRivals(s: Instances) {
    forall i, j :: 0 <= i < j < |s| ==> !Rivals(s[i], s[j])
  }

  predicate Rivals(a: SagaInstance, b: SagaInstance) {
    && Active(a) && Active(b) && a.sagaType == b.sagaType
    && exists p <- a.associations :: Associated(b, p, a.associations[p])
  }

  predicate AllValid(s: Instances) {
    forall i :: 0 <= i < |s| ==> s[i].Valid()
  }

  ghost predicate FreshFrom(cfg: Config, s: Instances, nextId: nat) {
    forall n: nat :: nextId <= n ==> Find(s, cfg.ids(n)).None?
  }

  /** Saga ids are supplied once; step names within a saga type and saga types are distinct. */
  ghost predicate ValidConfig(cfg: Config) {
    && (forall m: nat, n: nat :: m != n ==> cfg.ids(m) != cfg.ids(n))
    && (forall i :: 0 <= i < |cfg.sagas| ==> ValidModel(cfg.sagas[i]))
  }

  ghost predicate Inv<W>(cfg: Config, s: HarnessState<W>) {
    DistinctIds(s.stores.storage) && NoRivals(s.stores.storage) && AllValid(s.stores.storage)
    && FreshFrom(cfg, s.stores.storage, s.nextId)
  }

  /** Same saga, and no longer active unless it was. */
  predicate Follows(a: SagaInstance, b: SagaInstance) {
    && b.sagaId == a.sagaId && b.sagaType == a.sagaType && b.associations == a.associations
    && (Active(b) ==> Active(a)) && b.Valid()
  }

  predicate AllFollow(s: Instances, s': Instances) {
    |s| == |s'| && forall i :: 0 <= i < |s| ==> Follows(s[i], s'[i])
  }

  lemma FollowKeepsRivals(s: Instances, s': Instances)
    requires AllFollow(s, s') && NoRivals(s) && DistinctIds(s)
    ensures NoRivals(s') && DistinctIds(s') && AllValid(s')
  {
    forall i, j | 0 <= i < j < |s'| ensures !Rivals(s'[i], s'[j]) {
      assert !Rivals(s[i], s[j]);
    }
  }

  lemma {:induction false} FollowKeepsIds(s: Instances, s': Instances, id: SagaId)
    requires AllFollow(s, s')
    ensures Find(s, id).None? <==> Find(s', id).None?
  {
  }

  lemma FollowKeepsFresh(cfg: Config, s: Instances, s': Instances, nextId: nat)
    requires AllFollow(s, s') && FreshFrom(cfg, s, nextId)
    ensures FreshFrom(cfg, s', nextId)
  {
    hide Find;
    forall n: nat | nextId <= n ensures Find(s', cfg.ids(n)).None? {
      FollowKeepsIds(s, s', cfg.ids(n));
    }
  }

  /** A finished unit of work changes its own instance only, and that one stays the same saga. */
  lemma UnitFollows<W>(t: Trigger, oracle: Oracle<W>, pre: Stores<W>, fuel: nat)
    requires ValidTrigger(t, pre.storage) && DistinctIds(pre.storage) && AllValid(pre.storage)
    ensures var r := RunUnit(t, oracle, pre, fuel);
      r.Result? ==>
        if r.sagaId.None? then StartRejected(t, pre.storage) && r.stores == pre
        else
          && !StartRejected(t, pre.storage) && r.sagaId == Some(BaseInstance(t).sagaId)
          && AllFollow(Opened(t, pre.storage), r.stores.storage)
  {
    hide RunUnit, StartRejected, BaseInstance, Opened, CommittedInstance, IsEndStep, ValidModel, StepOf, Find,
         SameExcept, AllFollow;
    Atomicity(t, oracle, pre, fuel);
    var r, id := RunUnit(t, oracle, pre, fuel), BaseInstance(t).sagaId;
    if r.Result? && r.sagaId.Some? {
      BaseIsStored(t, pre.storage);
      OpenedDistinct(t, pre.storage);
      var left := Find(r.stores.storage, id).value;
      if r.committed {
        CommittedFollows(t.model, BaseInstance(t), left, r.stepsRun);
        CommittedStarted(t, oracle, pre, fuel);
      }
      ExceptFollows(Opened(t, pre.storage), r.stores.storage, id, BaseInstance(t), left);
    }
  }

  lemma CommittedStarted<W>(t: Trigger, oracle: Oracle<W>, pre: Stores<W>, fuel: nat)
    ensures var r := RunUnit(t, oracle, pre, fuel); r.Result? && r.sagaId.Some? ==> !StartRejected(t, pre.storage)
  {
    hide Drain, RollBack, Settle, StartRejected, Commit;
  }

  lemma CommittedFollows(model: SagaModel, base: SagaInstance, final: SagaInstance, stepsRun: seq<StepName>)
    requires CommittedInstance(model, base, final, stepsRun) && Active(base)
    ensures Follows(base, final)
  {
  }

  lemma OpenedDistinct(t: Trigger, storage: Instances)
    requires ValidTrigger(t, storage) && DistinctIds(storage) && AllValid(storage)
    ensures DistinctIds(Opened(t, storage)) && AllValid(Opened(t, storage))
  {
    hide DistinctIds, StepOf, ValidModel;
    if t.existing.None? {
      PutDistinct(storage, StartedInstance(t));
      PutNew(storage, StartedInstance(t));
    }
  }

  lemma ExceptFollows(s: Instances, s': Instances, id: SagaId, base: SagaInstance, left: SagaInstance)
    requires SameExcept(s, s', id) && DistinctIds(s) && AllValid(s)
    requires Find(s, id) == Some(base) && Find(s', id) == Some(left) && Follows(base, left)
    ensures AllFollow(s, s')
  {
    hide Find;
    assert DistinctIds(s');
    forall i | 0 <= i < |s| ensures Follows(s[i], s'[i]) {
      if s[i].sagaId == id {
        FindUnique(s, i);
        FindUnique(s', i);
      }
    }
  }

  lemma RivalRejectsStart(t: Trigger, storage: Instances, rival: SagaInstance)
    requires t.existing.None? && rival in storage && Rivals(rival, StartedInstance(t))
    ensures StartRejected(t, storage)
  {
    var p :| p in rival.associations && Associated(StartedInstance(t), p, rival.associations[p]);
    assert p == t.step.associationProperty;
    assert rival in Matching(storage, t.step.associationProperty, t.value);
    assert Competes(rival, t.model.sagaType);
  }

  /** A started instance has no rival: starting is rejected when there would be one. */
  lemma StartHasNoRival(t: Trigger, storage: Instances)
    requires t.existing.None? && Find(storage, t.freshId).None? && !StartRejected(t, storage) && NoRivals(storage)
    ensures NoRivals(Opened(t, storage)) && Opened(t, storage) == storage + [StartedInstance(t)]
  {
    hide Find;
    var x := StartedInstance(t);
    PutNew(storage, x);
    forall i | 0 <= i < |storage| ensures !Rivals(storage[i], x) {
      if Rivals(storage[i], x) {
        RivalRejectsStart(t, storage, storage[i]);
      }
    }
    var s := storage + [x];
    forall i, j | 0 <= i < j < |s| ensures !Rivals(s[i], s[j]) {
      assert s[i] == storage[i];
      if j < |storage| {
        assert !Rivals(storage[i], storage[j]);
      }
    }
  }

  lemma StartTakesAnId<W>(cfg: Config, t: Trigger, s: HarnessState<W>)
    requires ValidConfig(cfg) && FreshFrom(cfg, s.stores.storage, s.nextId)
    requires t.existing.None? && t.freshId == cfg.ids(s.nextId)
    ensures FreshFrom(cfg, Opened(t, s.stores.storage), s.nextId + 1)
  {
    hide Find, Put;
    forall n: nat | s.nextId + 1 <= n ensures Find(Opened(t, s.stores.storage), cfg.ids(n)).None? {
      FindPut(s.stores.storage, StartedInstance(t), cfg.ids(n));
    }
  }

  predicate RanFor<W>(result: Result<W>, existing: Option<SagaInstance>) {
    result.Result? && (existing.Some? ==> result.sagaId == Some(existing.value.sagaId))
  }

  /** Delivering again keeps the invariant. */
  ghost predicate AgainKeeps<W(!new)>(cfg: Config, again: Redelivery<W>) {
    forall event, s :: Inv(cfg, s) && !again(event, s).NeverReturns? ==> Inv(cfg, again(event, s).state)
  }

  lemma {:induction false} RedeliveryKeepsInv<W(!new)>(cfg: Config, events: seq<Event>, s: HarnessState<W>,
                                                       again: Redelivery<W>)
    requires Inv(cfg, s) && AgainKeeps(cfg, again)
    ensures var reply := RedeliverEach(events, s, again); !reply.NeverReturns? ==> Inv(cfg, reply.state)
  {
    hide Inv;
    if events != [] && again(events[0], s).Reports? {
      RedeliveryKeepsInv(cfg, events[1..], again(events[0], s).state, again);
    }
  }

  lemma RunUnitKeepsInv<W(!new)>(cfg: Config, d: Delivery<W>, model: SagaModel, existing: Option<SagaInstance>,
                                 value: string, s: HarnessState<W>, again: Redelivery<W>)
    requires ValidConfig(cfg) && Inv(cfg, s) && ValidModel(model) && d.event.className in model.steps
    requires existing.Some? ==> Active(existing.value) && Find(s.stores.storage, existing.value.sagaId) == existing
    requires AgainKeeps(cfg, again)
    ensures var reply := RunUnitFor(cfg, d, model, existing, value, s, again);
      && (!reply.NeverReturns? ==> Inv(cfg, reply.state))
      && (reply.Refused? ==> cfg.redeliver)
      && (reply.Reports? ==>
            && |reply.reports| == 1 && reply.reports[0].UnitRan? && reply.reports[0].sagaType == model.sagaType
            && RanFor(reply.reports[0].result, existing)
            && RanOn(cfg, d, model, existing, value, s, reply.reports[0].result)
            && (!cfg.redeliver ==> LeftBy(existing, reply.reports[0].result, s, reply.state)))
  {
    hide RunUnit, Inv, ValidConfig, AgainKeeps, Find, ValidModel;
    UnitKeepsInv(cfg, d, model, existing, value, s);
    var r := RunUnit(TriggerFor(cfg, d, model, existing, value, s.nextId), d.clients(model), s.stores, d.fuel);
    if r.Result? {
      RedeliveryKeepsInv(cfg, if cfg.redeliver then r.dispatched else [], AfterUnit(existing, r, s), again);
    }
  }

  /** The result is of a unit of work over the harness' stores, for the delivered event and the step of its class. */
  ghost predicate RanOn<W>(cfg: Config, d: Delivery<W>, model: SagaModel, existing: Option<SagaInstance>, value: string,
                     s: HarnessState<W>, result: Result<W>)
    requires d.event.className in model.steps
  {
    result == RunUnit(Trigger(model, cfg.routes, model.steps[d.event.className], d.event, existing, value,
                              cfg.ids(s.nextId), d.now, d.construction(model, d.event), cfg.copiers),
                      d.clients(model), s.stores, d.fuel)
  }

  /** Its stores are the harness' now, and an id is taken from the supply iff an instance was started. */
  ghost predicate LeftBy<W>(existing: Option<SagaInstance>, result: Result<W>, s: HarnessState<W>,
                            s': HarnessState<W>) {
    && result.Result? && s'.stores == result.stores
    && s'.nextId == if existing.None? && result.sagaId.Some? then s.nextId + 1 else s.nextId
  }

  lemma UnitKeepsInv<W>(cfg: Config, d: Delivery<W>, model: SagaModel, existing: Option<SagaInstance>, value: string,
                        s: HarnessState<W>)
    requires ValidConfig(cfg) && Inv(cfg, s) && ValidModel(model) && d.event.className in model.steps
    requires existing.Some? ==> Active(existing.value) && Find(s.stores.storage, existing.value.sagaId) == existing
    ensures var t := TriggerFor(cfg, d, model, existing, value, s.nextId);
      var r := RunUnit(t, d.clients(model), s.stores, d.fuel);
      r.Result? ==> Inv(cfg, AfterUnit(existing, r, s)) && RanFor(r, existing)
  {
    hide RunUnit, StartRejected, Find, NoRivals, DistinctIds, AllFollow, FreshFrom, Opened, ValidModel;
    var t, storage := TriggerFor(cfg, d, model, existing, value, s.nextId), s.stores.storage;
    TriggerIsValid(cfg, d, model, existing, value, s);
    UnitFollows(t, d.clients(model), s.stores, d.fuel);
    OnlyStartsAreRejected(t, storage);
    var r := RunUnit(t, d.clients(model), s.stores, d.fuel);
    if r.Result? && r.sagaId.Some? {
      OpenedKeeps(cfg, t, s);
      FollowKeepsRivals(Opened(t, storage), r.stores.storage);
      FollowKeepsFresh(cfg, Opened(t, storage), r.stores.storage, if existing.None? then s.nextId + 1 else s.nextId);
    }
  }

  lemma OnlyStartsAreRejected(t: Trigger, storage: Instances)
    ensures t.existing.Some? ==> !StartRejected(t, storage)
  {
  }

  lemma TriggerIsValid<W>(cfg: Config, d: Delivery<W>, model: SagaModel, existing: Option<SagaInstance>, value: string,
                          s: HarnessState<W>)
    requires Inv(cfg, s) && ValidModel(model) && d.event.className in model.steps
    requires existing.Some? ==> Active(existing.value) && Find(s.stores.storage, existing.value.sagaId) == existing
    ensures ValidTrigger(TriggerFor(cfg, d, model, existing, value, s.nextId), s.stores.storage)
  {
    hide NoRivals, DistinctIds;
    if existing.Some? {
      var i :| 0 <= i < |s.stores.storage| && s.stores.storage[i] == existing.value;
    }
  }

  lemma OpenedKeeps<W>(cfg: Config, t: Trigger, s: HarnessState<W>)
    requires ValidConfig(cfg) && Inv(cfg, s) && ValidTrigger(t, s.stores.storage) && !StartRejected(t, s.stores.storage)
    requires t.freshId == cfg.ids(s.nextId)
    ensures NoRivals(Opened(t, s.stores.storage)) && DistinctIds(Opened(t, s.stores.storage))
    ensures FreshFrom(cfg, Opened(t, s.stores.storage), if t.existing.None? then s.nextId + 1 else s.nextId)
  {
    hide NoRivals, DistinctIds, FreshFrom, AllValid, Find, Put, StepOf, ValidModel;
    OpenedDistinct(t, s.stores.storage);
    if t.existing.None? {
      StartHasNoRival(t, s.stores.storage);
      StartTakesAnId(cfg, t, s);
    }
  }

  // ----- one report per delivery and saga type ---------------------------------------------------------------

  /** With no rivals, at most one active instance of a saga type correlates. */
  lemma AtMostOneActive(s: Instances, model: SagaModel, step: Step, value: string)
    requires NoRivals(s) && DistinctIds(s)
    ensures |ActiveOnly(Correlated(s, model, step, value))| <= 1
  {
    hide NoRivals, DistinctIds;
    var active := ActiveOnly(Correlated(s, model, step, value));
    if |active| > 1 {
      var a, b := active[0], active[1];
      assert a in active && b in active;
      FilteredDistinct(s, model, step, value);
      TwoInstances(s, a, b, step.associationProperty, value);
    }
  }

  lemma TwoInstances(s: Instances, a: SagaInstance, b: SagaInstance, property: string, value: string)
    requires NoRivals(s) && a in s && b in s
    requires Active(a) && Active(b) && a.sagaType == b.sagaType && Associated(a, property, value)
    requires Associated(b, property, value)
    ensures a.sagaId == b.sagaId
  {
    var i :| 0 <= i < |s| && s[i] == a;
    var j :| 0 <= j < |s| && s[j] == b;
    assert Rivals(a, b) && Rivals(b, a);
  }

  lemma FilteredDistinct(s: Instances, model: SagaModel, step: Step, value: string)
    requires DistinctIds(s)
    ensures forall i, j :: 0 <= i < j < |ActiveOnly(Correlated(s, model, step, value))| ==>
              ActiveOnly(Correlated(s, model, step, value))[i].sagaId !=
                ActiveOnly(Correlated(s, model, step, value))[j].sagaId
  {
    MatchingDistinct(s, step.associationProperty, value);
    OfTypeKeepsDistinct(Matching(s, step.associationProperty, value), model.sagaType);
    ActiveOnlyKeepsDistinct(Correlated(s, model, step, value));
  }

  lemma {:induction false} OfTypeKeepsDistinct(s: Instances, sagaType: string)
    requires DistinctIds(s)
    ensures DistinctIds(OfType(s, sagaType))
  {
    if s != [] {
      OfTypeKeepsDistinct(s[1..], sagaType);
      assert forall x :: x in s[1..] ==> x.sagaId != s[0].sagaId;
    }
  }

  lemma {:induction false} ActiveOnlyKeepsDistinct(s: Instances)
    requires DistinctIds(s)
    ensures DistinctIds(ActiveOnly(s))
  {
    if s != [] {
      ActiveOnlyKeepsDistinct(s[1..]);
      assert forall x :: x in s[1..] ==> x.sagaId != s[0].sagaId;
    }
  }

  lemma AwaitingIff(model: SagaModel, step: Step, value: string)
    ensures forall x :: Awaits(x, model, step, value) <==> CorrelatesTo(x, model, step, value) && Active(x)
  {
    hide CorrelatesTo;
  }

  /**
   * A saga type that reacts gets exactly one report, and the kind of report is the storage's to decide, whatever is
   * delivered again in between; an exception comes from the event itself only if nothing is.
   */
  lemma DeliverToReportsOnce<W(!new)>(cfg: Config, d: Delivery<W>, model: SagaModel, s: HarnessState<W>,
                                      again: Redelivery<W>)
    requires ValidConfig(cfg) && Inv(cfg, s) && ValidModel(model) && d.event.className in model.steps
    requires AgainKeeps(cfg, again)
    ensures var reply, step := DeliverTo(cfg, d, model, s, again), model.steps[d.event.className];
      && (!reply.NeverReturns? ==> Inv(cfg, reply.state))
      && (!HasValue(d.event, step) ==> reply == Refused(s))
      && (reply.Refused? && !cfg.redeliver ==> !HasValue(d.event, step))
      && (reply.Reports? ==>
            && |reply.reports| == 1 && ReportFits(cfg, d, model, s, reply.reports[0])
            && (!reply.reports[0].UnitRan? ==> reply.state == s)
            && (reply.reports[0].UnitRan? && !cfg.redeliver ==>
                  reply.state.stores == reply.reports[0].result.stores))
  {
    hide RunUnitFor, Inv, ValidConfig, ValidModel, Find, Correlated, ActiveOnly, AgainKeeps, RanOn, CorrelatesTo,
         Awaits, LastToCorrelate, Active, RanFor;
    var step := model.steps[d.event.className];
    if HasValue(d.event, step) {
      var value := ValueOf(d.event, step);
      if step.start {
        RunUnitKeepsInv(cfg, d, model, None, value, s, again);
      } else {
        InvParts(cfg, s);
        AtMostOneActive(s.stores.storage, model, step, value);
        CorrelatedMembers(s.stores.storage, model, step, value);
        AwaitingIff(model, step, value);
        var active := ActiveOnly(Correlated(s.stores.storage, model, step, value));
        if active != [] {
          StoredOnce(s.stores.storage, active[0]);
          RunUnitKeepsInv(cfg, d, model, Some(active[0]), value, s, again);
          OneInstance(cfg, d, model, value, active, s, again);
        } else if Correlated(s.stores.storage, model, step, value) != [] {
          var last := LastCorrelated(s.stores.storage, model, step, value);
        }
      }
    }
  }

  lemma InvParts<W>(cfg: Config, s: HarnessState<W>)
    requires Inv(cfg, s)
    ensures NoRivals(s.stores.storage) && DistinctIds(s.stores.storage)
  {
  }

  /**
   * The correlated instances are the stored ones of that type with that association value; the active ones, those
   * not terminal.
   */
  lemma CorrelatedMembers(s: Instances, model: SagaModel, step: Step, value: string)
    ensures forall x :: x in Correlated(s, model, step, value) <==> CorrelatesTo(x, model, step, value) && x in s
    ensures forall x :: x in ActiveOnly(Correlated(s, model, step, value)) <==>
        CorrelatesTo(x, model, step, value) && x in s && Active(x)
    ensures Correlated(s, model, step, value) != [] <==> exists x <- s :: CorrelatesTo(x, model, step, value)
    ensures ActiveOnly(Correlated(s, model, step, value)) != [] <==>
        exists x <- s :: CorrelatesTo(x, model, step, value) && Active(x)
  {
    var correlated := Correlated(s, model, step, value);
    var active := ActiveOnly(correlated);
    if correlated != [] {
      assert correlated[0] in correlated;
    }
    if active != [] {
      assert active[0] in active;
    }
  }

  predicate CorrelatesTo(x: SagaInstance, model: SagaModel, step: Step, value: string) {
    && x.sagaType == model.sagaType
    && step.associationProperty in x.associations && x.associations[step.associationProperty] == value
  }

  /** It correlates and is neither COMPLETED nor FAILED. */
  predicate Awaits(x: SagaInstance, model: SagaModel, step: Step, value: string) {
    CorrelatesTo(x, model, step, value) && x.status != SagaStatus.Completed && x.status != SagaStatus.Failed
  }

  /** Of the stored instances that correlate, the one stored last. */
  predicate LastToCorrelate(s: Instances, i: nat, model: SagaModel, step: Step, value: string) {
    && i < |s| && CorrelatesTo(s[i], model, step, value)
    && forall j :: i < j < |s| ==> !CorrelatesTo(s[j], model, step, value)
  }

  /**
   * A start step always runs; another runs, for an awaiting instance, iff there is one; else it is unexpected for the
   * correlating instance stored last, or unmatched if there is none. What runs is a unit of work over the stores.
   */
  ghost predicate ReportFits<W>(cfg: Config, d: Delivery<W>, model: SagaModel, s: HarnessState<W>, report: Report<W>)
    requires d.event.className in model.steps && HasValue(d.event, model.steps[d.event.className])
  {
    var step, storage := model.steps[d.event.className], s.stores.storage;
    var value := ValueOf(d.event, step);
    && !report.Ignored? && report.sagaType == model.sagaType
    && (report.UnitRan? <==> step.start || exists x <- storage :: Awaits(x, model, step, value))
    && (report.UnitRan? && step.start ==> RanOn(cfg, d, model, None, value, s, report.result))
    && (report.UnitRan? && !step.start ==>
          exists x <- storage ::
            Awaits(x, model, step, value) && RanFor(report.result, Some(x))
            && RanOn(cfg, d, model, Some(x), value, s, report.result))
    && (report.Unexpected? ==>
          exists i: nat :: LastToCorrelate(storage, i, model, step, value) && storage[i].sagaId == report.sagaId)
    && (report.Unmatched? <==> !step.start && !exists x <- storage :: CorrelatesTo(x, model, step, value))
  }

  lemma CorrelatedFirst(s: Instances, model: SagaModel, step: Step, value: string)
    requires s != []
    ensures Correlated(s, model, step, value) ==
              (if CorrelatesTo(s[0], model, step, value) then [s[0]] else []) + Correlated(s[1..], model, step, value)
  {
    var first, rest := s[0], Matching(s[1..], step.associationProperty, value);
    if Associated(first, step.associationProperty, value) {
      assert ([first] + rest)[1..] == rest;
    } else {
      assert [] + rest == rest;
    }
  }

  lemma NoneCorrelates(s: Instances, model: SagaModel, step: Step, value: string)
    requires Correlated(s, model, step, value) == []
    ensures forall j :: 0 <= j < |s| ==> !CorrelatesTo(s[j], model, step, value)
  {
    hide Correlated;
    CorrelatedMembers(s, model, step, value);
  }

  lemma LastOfRest(s: Instances, i: nat, model: SagaModel, step: Step, value: string)
    requires s != [] && LastToCorrelate(s[1..], i, model, step, value)
    ensures LastToCorrelate(s, i + 1, model, step, value) && s[i + 1] == s[1..][i]
  {
    hide CorrelatesTo;
    assert forall j :: 0 < j < |s| ==> s[j] == s[1..][j - 1];
  }

  lemma {:induction false} LastCorrelated(s: Instances, model: SagaModel, step: Step, value: string) returns (i: nat)
    requires Correlated(s, model, step, value) != []
    ensures LastToCorrelate(s, i, model, step, value)
    ensures var correlated := Correlated(s, model, step, value); s[i] == correlated[|correlated| - 1]
    decreases s, 1
  {
    if s == [] {
      assert false;
    } else {
      i := LastCorrelatedOf(s, model, step, value);
    }
  }

  lemma {:induction false} LastCorrelatedOf(s: Instances, model: SagaModel, step: Step, value: string)
    returns (i: nat)
    requires s != [] && Correlated(s, model, step, value) != []
    ensures LastToCorrelate(s, i, model, step, value)
    ensures var correlated := Correlated(s, model, step, value); s[i] == correlated[|correlated| - 1]
    decreases s, 0
  {
    hide Correlated, CorrelatesTo;
    CorrelatedFirst(s, model, step, value);
    if Correlated(s[1..], model, step, value) == [] {
      NoneCorrelates(s[1..], model, step, value);
      i := 0;
      assert forall j :: 0 < j < |s| ==> s[j] == s[1..][j - 1];
    } else {
      i := LastCorrelated(s[1..], model, step, value);
      LastOfRest(s, i, model, step, value);
      i := i + 1;
    }
  }

  lemma StoredOnce(s: Instances, x: SagaInstance)
    requires DistinctIds(s) && x in s
    ensures Find(s, x.sagaId) == Some(x)
  {
    var i :| 0 <= i < |s| && s[i] == x;
    FindUnique(s, i);
  }

  lemma OneInstance<W>(cfg: Config, d: Delivery<W>, model: SagaModel, value: string, found: Instances,
                       s: HarnessState<W>, again: Redelivery<W>)
    requires d.event.className in model.steps && |found| == 1 && Active(found[0])
    requires Find(s.stores.storage, found[0].sagaId) == Some(found[0])
    ensures RunForEach(cfg, d, model, value, found, s, again) ==
              RunUnitFor(cfg, d, model, Some(found[0]), value, s, again)
  {
    hide RunUnitFor, Find;
    var first := RunUnitFor(cfg, d, model, Some(found[0]), value, s, again);
    assert found[1..] == [];
    if first.Reports? {
      assert first.reports + [] == first.reports;
    }
  }

  /**
   * An instance found to correlate is read again when its turn comes, since what was delivered in between may have
   * changed it: gone, it leaves the event unmatched; ended, unexpected; and else the unit of work gets it as it is now.
   */
  lemma ReadAgain<W>(cfg: Config, d: Delivery<W>, model: SagaModel, value: string, found: SagaInstance,
                     s: HarnessState<W>, again: Redelivery<W>)
    requires d.event.className in model.steps
    ensures var reply := RunForEach(cfg, d, model, value, [found], s, again);
      var stored := Find(s.stores.storage, found.sagaId);
      && (stored.None? ==> reply == Reports(s, [Unmatched(model.sagaType)]))
      && (stored.Some? ==>
            if stored.value.status == SagaStatus.Completed || stored.value.status == SagaStatus.Failed
            then reply == Reports(s, [Unexpected(model.sagaType, stored.value.sagaId)])
            else reply == RunUnitFor(cfg, d, model, stored, value, s, again))
  {
    hide RunUnitFor, Find;
    var stored := Find(s.stores.storage, found.sagaId);
    if stored.Some? {
      var first := RunUnitFor(cfg, d, model, stored, value, s, again);
      assert first.Reports? ==> first.reports + [] == first.reports;
    }
    assert [found][1..] == [];
  }

  function InTurn<W>(before: Reply<W>, after: Reply<W>): Reply<W> {
    if before.Reports? && after.Reports? then Reports(after.state, before.reports + after.reports)
    else if before.Reports? then after else before
  }

  lemma InTurnTwice<W>(x: Reply<W>, y: Reply<W>, z: Reply<W>)
    requires x.Reports? && y.Reports?
    ensures InTurn(x, y).Reports? && InTurn(x, y).state == y.state
    ensures InTurn(x, InTurn(y, z)) == InTurn(InTurn(x, y), z)
  {
    assert z.Reports? ==> x.reports + (y.reports + z.reports) == (x.reports + y.reports) + z.reports;
  }

  lemma NothingInTurn<W>(s: HarnessState<W>, reply: Reply<W>)
    ensures InTurn(Reports(s, []), reply) == reply
  {
    assert reply.Reports? ==> [] + reply.reports == reply.reports;
  }

  lemma StoppedInTurn<W>(x: Reply<W>, y: Reply<W>)
    requires x.Reports? && !y.Reports?
    ensures InTurn(x, y) == y
  {
  }

  lemma FirstInTurn<W>(cfg: Config, d: Delivery<W>, model: SagaModel, value: string, found: Instances,
                       s: HarnessState<W>, again: Redelivery<W>)
    requires d.event.className in model.steps && found != []
    ensures var first := RunForEach(cfg, d, model, value, [found[0]], s, again);
      RunForEach(cfg, d, model, value, found, s, again)
      == if first.Reports? then InTurn(first, RunForEach(cfg, d, model, value, found[1..], first.state, again))
         else first
  {
    hide RunUnitFor, Find, Terminal;
    assert [found[0]][1..] == [];
    assert forall reports: seq<Report<W>> :: reports + [] == reports;
  }

  /** One after the other, in the order found, each on what the earlier ones left, up to the first exception. */
  lemma {:induction false} EachInTurn<W>(cfg: Config, d: Delivery<W>, model: SagaModel, value: string, a: Instances,
                                         b: Instances, s: HarnessState<W>, again: Redelivery<W>)
    requires d.event.className in model.steps
    ensures var before := RunForEach(cfg, d, model, value, a, s, again);
      RunForEach(cfg, d, model, value, a + b, s, again)
      == if before.Reports? then InTurn(before, RunForEach(cfg, d, model, value, b, before.state, again)) else before
    decreases a
  {
    hide RunUnitFor, Find, InTurn;
    if a == [] {
      assert a + b == b;
      NothingInTurn(s, RunForEach(cfg, d, model, value, b, s, again));
    } else {
      hide RunForEach;
      assert (a + b)[0] == a[0] && (a + b)[1..] == a[1..] + b;
      var first := RunForEach(cfg, d, model, value, [a[0]], s, again);
      FirstInTurn(cfg, d, model, value, a, s, again);
      FirstInTurn(cfg, d, model, value, a + b, s, again);
      if first.Reports? {
        EachInTurn(cfg, d, model, value, a[1..], b, first.state, again);
        var second := RunForEach(cfg, d, model, value, a[1..], first.state, again);
        if second.Reports? {
          InTurnTwice(first, second, RunForEach(cfg, d, model, value, b, second.state, again));
        } else {
          StoppedInTurn(first, second);
        }
      }
    }
  }

  function ReactingSagas(sagas: seq<SagaModel>, className: string): seq<SagaModel> {
    if sagas == [] then []
    else (if className in sagas[0].steps then [sagas[0]] else []) + ReactingSagas(sagas[1..], className)
  }

  predicate ReportsFor<W>(reports: seq<Report<W>>, sagas: seq<SagaModel>) {
    && |reports| == |sagas|
    && forall i :: 0 <= i < |sagas| ==> !reports[i].Ignored? && reports[i].sagaType == sagas[i].sagaType
  }

  lemma {:induction false} DeliverToSagasReports<W(!new)>(cfg: Config, d: Delivery<W>, sagas: seq<SagaModel>,
                                                          s: HarnessState<W>, again: Redelivery<W>)
    requires ValidConfig(cfg) && Inv(cfg, s) && forall i :: 0 <= i < |sagas| ==> ValidModel(sagas[i])
    requires AgainKeeps(cfg, again)
    ensures var reply := DeliverToSagas(cfg, d, sagas, s, again);
      && (!reply.NeverReturns? ==> Inv(cfg, reply.state))
      && (reply.Reports? ==> ReportsFor(reply.reports, ReactingSagas(sagas, d.event.className)))
  {
    hide DeliverTo, Inv, ValidConfig, ValidModel, AgainKeeps;
    if sagas != [] {
      if d.event.className !in sagas[0].steps {
        DeliverToSagasReports(cfg, d, sagas[1..], s, again);
      } else {
        OneReport(cfg, d, sagas[0], s, again);
        var first := DeliverTo(cfg, d, sagas[0], s, again);
        if first.Reports? {
          DeliverToSagasReports(cfg, d, sagas[1..], first.state, again);
        }
      }
    }
  }

  lemma OneReport<W(!new)>(cfg: Config, d: Delivery<W>, model: SagaModel, s: HarnessState<W>, again: Redelivery<W>)
    requires ValidConfig(cfg) && Inv(cfg, s) && ValidModel(model) && d.event.className in model.steps
    requires AgainKeeps(cfg, again)
    ensures var reply := DeliverTo(cfg, d, model, s, again);
      && (!reply.NeverReturns? ==> Inv(cfg, reply.state))
      && (reply.Reports? ==>
            |reply.reports| == 1 && !reply.reports[0].Ignored? && reply.reports[0].sagaType == model.sagaType)
  {
    hide DeliverTo, Inv, ValidConfig, ValidModel, AgainKeeps;
    DeliverToReportsOnce(cfg, d, model, s, again);
  }

  /**
   * One report per reacting saga type, in registration order, or a single IGNORED; and the invariant holds at the end,
   * also when an exception ends it, however deep the deliveries nested in it go.
   */
  lemma {:induction false} DeliverAllReports<W(!new)>(cfg: Config, d: Delivery<W>, s: HarnessState<W>)
    requires ValidConfig(cfg) && Inv(cfg, s)
    ensures var reply, reacting := DeliverAll(cfg, d, s), ReactingSagas(cfg.sagas, d.event.className);
      && (!reply.NeverReturns? ==> Inv(cfg, reply.state))
      && (reply.Reports? ==> if reacting == [] then reply.reports == [Ignored] else ReportsFor(reply.reports, reacting))
    decreases d.depth, 1
  {
    hide DeliverToSagas, Inv, AgainKeeps;
    NestedKeepsInv(cfg, d);
    DeliverToSagasReports(cfg, d, cfg.sagas, s, Again(cfg, d));
  }

  lemma {:induction false} NestedKeepsInv<W(!new)>(cfg: Config, d: Delivery<W>)
    requires ValidConfig(cfg)
    ensures AgainKeeps(cfg, Again(cfg, d))
    decreases d.depth, 0
  {
    hide DeliverAll, Inv, ValidConfig;
    if d.depth > 0 {
      forall event: Event, s: HarnessState<W> | Inv(cfg, s) && !Again(cfg, d)(event, s).NeverReturns?
        ensures Inv(cfg, Again(cfg, d)(event, s).state)
      {
        DeliverAllReports(cfg, d.(event := event, depth := d.depth - 1), s);
      }
    }
  }

  /**
   * Without redelivery a delivery that returns is refused iff the event is not annotated or, for some saga type with a
   * step for its class, has no value under that step's property; an event that is not annotated changes nothing.
   */
  lemma RefusedIff<W(!new)>(cfg: Config, d: Delivery<W>, s: HarnessState<W>)
    requires ValidConfig(cfg) && Inv(cfg, s) && !cfg.redeliver
    ensures var reply := DeliverAll(cfg, d, s);
      && (!d.event.annotated ==> reply == Refused(s))
      && (!reply.NeverReturns? ==>
            (reply.Refused? <==> !d.event.annotated || exists model <- cfg.sagas :: LacksValue(d.event, model)))
  {
    hide DeliverToSagas, Inv, AgainKeeps;
    NestedKeepsInv(cfg, d);
    SomeRefuses(cfg, d, cfg.sagas, s, Again(cfg, d));
  }

  /** The saga type has a step for the event's class, and the event no readable value for the step's property. */
  predicate LacksValue(event: Event, model: SagaModel) {
    && event.className in model.steps
    && var property := model.steps[event.className].associationProperty;
       !(property in event.properties && event.properties[property].ReadsAs?)
  }

  lemma {:induction false} SomeRefuses<W(!new)>(cfg: Config, d: Delivery<W>, sagas: seq<SagaModel>, s: HarnessState<W>,
                                                again: Redelivery<W>)
    requires ValidConfig(cfg) && Inv(cfg, s) && forall i :: 0 <= i < |sagas| ==> ValidModel(sagas[i])
    requires AgainKeeps(cfg, again) && !cfg.redeliver
    ensures var reply := DeliverToSagas(cfg, d, sagas, s, again);
      !reply.NeverReturns? ==> (reply.Refused? <==> exists model <- sagas :: LacksValue(d.event, model))
  {
    hide DeliverTo, Inv, ValidConfig, ValidModel, AgainKeeps, ReportFits;
    if sagas != [] {
      var rest := sagas[1..];
      assert sagas == [sagas[0]] + rest;
      assert (exists model <- sagas :: LacksValue(d.event, model)) <==>
          LacksValue(d.event, sagas[0]) || exists model <- rest :: LacksValue(d.event, model);
      if d.event.className !in sagas[0].steps {
        SomeRefuses(cfg, d, rest, s, again);
      } else {
        DeliverToReportsOnce(cfg, d, sagas[0], s, again);
        var first := DeliverTo(cfg, d, sagas[0], s, again);
        if first.Reports? {
          SomeRefuses(cfg, d, rest, first.state, again);
        }
      }
    }
  }

  /** One report for each saga type that reacts to what arrives, or a single IGNORED; nothing for client work. */
  ghost predicate RepliesTo<W>(cfg: Config, action: Action<W>, reply: Reply<W>) {
    && !reply.NeverReturns?
    && (action.Uses? ==> reply.Reports? && reply.reports == [])
    && (action.Arrives? && reply.Reports? ==>
          var reacting := ReactingSagas(cfg.sagas, action.delivery.event.className);
          if reacting == [] then reply.reports == [Ignored] else ReportsFor(reply.reports, reacting))
  }

  lemma ActKeepsInv<W(!new)>(cfg: Config, action: Action<W>, s: HarnessState<W>)
    requires ValidConfig(cfg) && Inv(cfg, s)
    ensures var reply := Act(cfg, action, s);
      reply.NeverReturns? || (Inv(cfg, reply.state) && RepliesTo(cfg, action, reply))
  {
    hide DeliverAll, ReactingSagas, ReportsFor, ValidConfig, DistinctIds, NoRivals, AllValid, FreshFrom;
    if action.Arrives? {
      DeliverAllReports(cfg, action.delivery, s);
    }
  }

  /** Every state a harness reaches, through any deliveries and any client code, keeps the invariant. */
  lemma {:induction false} EveryReachableState<W(!new)>(cfg: Config, actions: seq<Action<W>>, s: HarnessState<W>)
    requires ValidConfig(cfg) && Inv(cfg, s)
    ensures var run := ActEach(cfg, actions, s);
      run.Run? ==> Inv(cfg, run.state) && |run.replies| == |actions| &&
                   forall i :: 0 <= i < |actions| ==> RepliesTo(cfg, actions[i], run.replies[i])
  {
    hide Act, Inv, RepliesTo, ValidConfig;
    if actions != [] {
      EveryReachableState(cfg, actions[..|actions| - 1], s);
      var before := ActEach(cfg, actions[..|actions| - 1], s);
      if before.Run? {
        ActKeepsInv(cfg, actions[|actions| - 1], before.state);
      }
    }
  }

  // ----- what is delivered again -----------------------------------------------------------------------------

  /** The events, arriving from outside one after the other. */
  function Arriving<W>(d: Delivery<W>, events: seq<Event>): seq<Action<W>>
    requires d.depth > 0
  {
    seq(|events|, i requires 0 <= i < |events| => Arrives(d.(event := events[i], depth := d.depth - 1)))
  }

  lemma {:induction false} RedeliverLast<W>(events: seq<Event>, s: HarnessState<W>, again: Redelivery<W>)
    requires events != []
    ensures var n := |events| - 1;
      var front := RedeliverEach(events[..n], s, again);
      RedeliverEach(events, s, again) ==
        if !front.Reports? then front
        else
          var last := again(events[n], front.state);
          if last.Reports? then Reports(last.state, []) else last
  {
    var n, first := |events| - 1, again(events[0], s);
    if n == 0 {
      assert events[1..] == [];
    } else if first.Reports? {
      RedeliverLast(events[1..], first.state, again);
      assert events[1..][..n - 1] == events[..n][1..];
    }
  }

  predicate NoneRefused<W>(replies: seq<Reply<W>>) {
    forall i :: 0 <= i < |replies| ==> replies[i].Reports?
  }

  lemma NoReplies<W>()
    ensures NoneRefused<W>([])
  {
  }

  lemma OneMoreReply<W>(replies: seq<Reply<W>>, reply: Reply<W>)
    ensures NoneRefused(replies + [reply]) <==> NoneRefused(replies) && reply.Reports?
  {
    var all := replies + [reply];
    assert all[|replies|] == reply && forall i :: 0 <= i < |replies| ==> all[i] == replies[i];
  }

  /**
   * Delivering dispatched events again, nested in the dispatch, ends as if they had arrived from outside one after the
   * other: without an exception iff none of those arrivals meets one, and in the same state.
   */
  lemma {:induction false} RedeliveryIsArrival<W>(cfg: Config, d: Delivery<W>, events: seq<Event>, s: HarnessState<W>)
    requires d.depth > 0
    ensures var nested, run := RedeliverEach(events, s, Again(cfg, d)), ActEach(cfg, Arriving(d, events), s);
      && (nested.Reports? <==> run.Run? && NoneRefused(run.replies))
      && (nested.Reports? ==> run.state == nested.state && |run.replies| == |events|)
  {
    hide DeliverAll, NoneRefused;
    assert NoneRefused<W>([]) by {
      NoReplies<W>();
    }
    if events != [] {
      var n := |events| - 1;
      var front, actions := events[..n], Arriving(d, events);
      RedeliveryIsArrival(cfg, d, front, s);
      RedeliverLast(events, s, Again(cfg, d));
      assert actions[..n] == Arriving(d, front);
      var before := ActEach(cfg, actions[..n], s);
      if before.Run? {
        var reply := Act(cfg, actions[n], before.state);
        assert reply.NeverReturns? || ActEach(cfg, actions, s) == Run(reply.state, before.replies + [reply]);
        OneMoreReply(before.replies, reply);
      }
    }
  }

  /**
   * With redelivery a unit of work ends as if, once it had run, each event it dispatched had arrived from outside, one
   * after the other; without, it ends where it ran.
   */
  lemma UnitThenArrivals<W>(cfg: Config, d: Delivery<W>, model: SagaModel, existing: Option<SagaInstance>,
                            value: string, s: HarnessState<W>)
    requires d.event.className in model.steps && d.depth > 0
    ensures var reply := RunUnitFor(cfg, d, model, existing, value, s, Again(cfg, d));
      var r := RunUnit(TriggerFor(cfg, d, model, existing, value, s.nextId), d.clients(model), s.stores, d.fuel);
      r.Result? ==>
        var run := ActEach(cfg, Arriving(d, if cfg.redeliver then r.dispatched else []), AfterUnit(existing, r, s));
        && (reply.Reports? <==> run.Run? && NoneRefused(run.replies))
        && (reply.Reports? ==> reply.reports == [UnitRan(model.sagaType, r)] && reply.state == run.state)
  {
    hide RunUnit, ActEach, NoneRefused, Again;
    var r := RunUnit(TriggerFor(cfg, d, model, existing, value, s.nextId), d.clients(model), s.stores, d.fuel);
    if r.Result? {
      RedeliveryIsArrival(cfg, d, if cfg.redeliver then r.dispatched else [], AfterUnit(existing, r, s));
    }
  }
}
