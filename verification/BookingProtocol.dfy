/** The booking saga run by the harness: every sequence of deliveries, with any failures injected, stays safe. */
module BookingProtocol {
  import opened Spi
  import opened LifecycleHistory
  import opened InMemoryStorage
  import opened SagaLifecycle
  import opened UnitOfWork
  import opened ClientCode
  import opened UnitGuarantees
  import opened UnitOutcomes
  import opened Harness
  import opened Booking
  import opened BookingSteps
  import opened BookingSafety

  // ----- the events that arrive ------------------------------------------------------------------------------

  datatype Arrival =
    | Request(bookingId: string, inventoryId: string, checkIn: string, checkOut: string, amount: string)
    | Pay(paymentId: string, bookingId: string)
    | Decline(paymentId: string, bookingId: string, reason: string)

  function EventOf(a: Arrival): Event {
    match a
    case Request(b, i, checkIn, checkOut, amount) => Requested(b, i, checkIn, checkOut, amount)
    case Pay(p, b) => PaymentConfirmed(p, b)
    case Decline(p, b, reason) => PaymentDeclined(p, b, reason)
  }

  function StepFor(a: Arrival): Step {
    match a
    case Request(_, _, _, _, _) => REQUESTED
    case Pay(_, _) => PAID
    case Decline(_, _, _) => DECLINED
  }

  /** One arrival, when it arrives, and the failures injected while it is dealt with. */
  function DeliveryOf(a: Arrival, now: int, faults: Faults, fuel: nat): Delivery<World> {
    Delivery(EventOf(a), now, (model: SagaModel) => Client(faults), (model: SagaModel, event: Event) => None, fuel, 0)
  }

  /**
   * The protocol's aggregates are in repositories of its own, so the harness' store needs no copier; nothing is
   * delivered again.
   */
  function ConfigOf(ids: nat -> SagaId): Config {
    Config([SAGA], ROUTES, ids, {}, false)
  }

  ghost predicate SafeStores(s: Stores<World>)
    requires DistinctIds(s.storage)
  {
    Safe(ById(s.storage), s.contexts, s.world)
  }

  // ----- one unit of work ------------------------------------------------------------------------------------

  /** What the harness passes to a unit of work for an arrival. */
  predicate TriggerOf(t: Trigger, a: Arrival) {
    && t.model == SAGA && t.routes == ROUTES && t.step == StepFor(a) && t.event == EventOf(a) && t.construction.None?
    && t.value == a.bookingId && (t.existing.None? <==> a.Request?)
    && (t.existing.Some? ==> BOOKING_ID in t.existing.value.associations && BookingOf(t.existing.value) == a.bookingId)
  }

  lemma TriggerEnv(t: Trigger, a: Arrival)
    requires TriggerOf(t, a)
    ensures BookingEnv(EnvOf(t), a.bookingId) && Property(t.event, BOOKING_ID) == a.bookingId
    ensures BookingOf(BaseInstance(t)) == a.bookingId && BOOKING_ID in BaseInstance(t).associations
    ensures EnvOf(t).sagaId == BaseInstance(t).sagaId
  {
  }

  lemma BegunAboutToRun(t: Trigger, a: Arrival, pre: Stores<World>)
    requires TriggerOf(t, a)
    ensures AboutToRun(Begun(t, pre), StepFor(a), EventOf(a))
    ensures Begun(t, pre).world == pre.world && Begun(t, pre).contexts == pre.contexts
  {
    hide Opened;
  }

  /** Storage by id: the unit of work's own instance is what it left, every other one is untouched. */
  lemma OneInstanceChanged(t: Trigger, pre: Instances, post: Instances, left: SagaInstance)
    requires ValidTrigger(t, pre) && DistinctIds(pre)
    requires SameExcept(Opened(t, pre), post, BaseInstance(t).sagaId)
    requires Find(post, BaseInstance(t).sagaId) == Some(left)
    ensures DistinctIds(post) && ById(post) == ById(pre)[BaseInstance(t).sagaId := left]
  {
    hide Find, ById, Put, ValidModel, StepOf;
    var id := BaseInstance(t).sagaId;
    if t.existing.None? {
      PutDistinct(pre, StartedInstance(t));
      PutNew(pre, StartedInstance(t));
    }
    var m := ById(pre)[id := left];
    forall other ensures Find(post, other) == if other in m then Some(m[other]) else None {
      if other != id {
        FindExcept(Opened(t, pre), post, id, other);
        if t.existing.None? {
          FindPut(pre, StartedInstance(t), other);
        }
      }
    }
    ByIdIsFind(post, m);
  }

  lemma {:induction false} FindExcept(s: Instances, s': Instances, id: SagaId, other: SagaId)
    requires SameExcept(s, s', id) && other != id
    ensures Find(s', other) == Find(s, other)
  {
    if s != [] {
      FindExcept(s[1..], s'[1..], id, other);
    }
  }

  // ----- the context values written --------------------------------------------------------------------------

  lemma {:induction false} PutsElsewhere(contexts: Contexts, id: SagaId, puts: seq<(string, string)>, other: SagaId)
    requires other != id
    ensures SameRecall(contexts, PutAll(contexts, id, puts), other)
  {
    if puts != [] {
      PutsElsewhere(contexts, id, puts[..|puts| - 1], other);
    }
  }

  lemma PutsOthersRecall(contexts: Contexts, id: SagaId, puts: seq<(string, string)>)
    ensures OthersRecall(contexts, PutAll(contexts, id, puts), id)
  {
    hide SameRecall;
    forall other | other != id ensures SameRecall(contexts, PutAll(contexts, id, puts), other) {
      PutsElsewhere(contexts, id, puts, other);
    }
  }

  lemma PutOne(contexts: Contexts, id: SagaId, puts: seq<(string, string)>, name: string, value: string, read: string)
    ensures Recalled(PutAll(contexts, id, puts + [(name, value)]), id, read)
            == if read == name then Some(value) else Recalled(PutAll(contexts, id, puts), id, read)
  {
    assert (puts + [(name, value)])[..|puts|] == puts;
  }

  lemma PaidRecall(contexts: Contexts, id: SagaId, paymentId: string)
    ensures SameRecall(contexts, PutAll(contexts, id, [(PAYMENT_ID, paymentId)]), id)
    ensures SameRecall(contexts, PutAll(contexts, id, []), id)
  {
    PutOne(contexts, id, [], PAYMENT_ID, paymentId, INVENTORY_ID);
    PutOne(contexts, id, [], PAYMENT_ID, paymentId, CLAIM_ID);
    assert [] + [(PAYMENT_ID, paymentId)] == [(PAYMENT_ID, paymentId)];
  }

  lemma StartRecall(contexts: Contexts, id: SagaId, inventoryId: string, amount: string, claimId: string)
    ensures var after := PutAll(contexts, id, [(INVENTORY_ID, inventoryId), (AMOUNT, amount), (CLAIM_ID, claimId)]);
      Recalled(after, id, INVENTORY_ID) == Some(inventoryId) && Recalled(after, id, CLAIM_ID) == Some(claimId)
  {
    hide PutAll;
    var a, b, c := (INVENTORY_ID, inventoryId), (AMOUNT, amount), (CLAIM_ID, claimId);
    assert [a, b] + [c] == [a, b, c] && [a] + [b] == [a, b] && [] + [a] == [a];
    PutOne(contexts, id, [a, b], CLAIM_ID, claimId, INVENTORY_ID);
    PutOne(contexts, id, [a, b], CLAIM_ID, claimId, CLAIM_ID);
    PutOne(contexts, id, [a], AMOUNT, amount, INVENTORY_ID);
    PutOne(contexts, id, [], INVENTORY_ID, inventoryId, INVENTORY_ID);
  }

  // ----- the instance left behind ----------------------------------------------------------------------------

  lemma EndSteps(name: StepName)
    ensures IsEndStep(SAGA, name) <==> name == CONFIRMED.name || name == DECLINED.name
  {
    if name == CONFIRMED.name {
      assert CONFIRMED.eventClass in SAGA.steps;
    }
    if name == DECLINED.name {
      assert DECLINED.eventClass in SAGA.steps;
    }
  }

  lemma StartedShape(t: Trigger, final: SagaInstance)
    requires t.existing.None? && t.model == SAGA && t.step.associationProperty == BOOKING_ID
    requires CommittedInstance(SAGA, StartedInstance(t), final, [REQUESTED.name, CLAIMED.name])
    ensures Shape(final) && Holder(final) && BookingOf(final) == t.value
  {
    hide IsEndStep;
    EndSteps(CLAIMED.name);
    assert REQUESTED.name in [REQUESTED.name, CLAIMED.name] && CLAIMED.name in [REQUESTED.name, CLAIMED.name];
    assert REQUESTED.name in CompletedSteps(final) && CLAIMED.name in CompletedSteps(final);
  }

  lemma StartFailedShape(t: Trigger, failure: SagaFailure)
    requires t.existing.None? && t.model == SAGA && t.step.associationProperty == BOOKING_ID
    ensures var x := FailedWith(StartedInstance(t), failure, t.now); Shape(x) && !Holder(x)
  {
  }

  lemma SecondShape(base: SagaInstance, final: SagaInstance, stepsRun: seq<StepName>)
    requires Shape(base) && Active(base) && CommittedInstance(SAGA, base, final, stepsRun)
    requires stepsRun == [PAID.name, CONFIRMED.name] || stepsRun == [DECLINED.name]
    ensures Shape(final) && BookingOf(final) == BookingOf(base)
    ensures EndedAt(final, if stepsRun == [DECLINED.name] then DECLINED else CONFIRMED)
    ensures stepsRun != [DECLINED.name] ==> Holder(final)
  {
    hide IsEndStep;
    EndSteps(stepsRun[|stepsRun| - 1]);
    assert REQUESTED.name in CompletedSteps(base) && CLAIMED.name in CompletedSteps(base);
    assert REQUESTED.name in CompletedSteps(final) && CLAIMED.name in CompletedSteps(final);
  }

  lemma SecondFailedShape(base: SagaInstance, failure: SagaFailure, now: int)
    requires Shape(base) && Active(base)
    ensures var x := FailedWith(base, failure, now); Shape(x) && Holder(x) && BookingOf(x) == BookingOf(base)
  {
  }

  // ----- each unit of work keeps the protocol safe -----------------------------------------------------------

  lemma RequestIsSafe(t: Trigger, a: Arrival, faults: Faults, pre: Stores<World>, fuel: nat)
    requires ValidTrigger(t, pre.storage) && TriggerOf(t, a) && a.Request? && !StartRejected(t, pre.storage)
    requires DistinctIds(pre.storage) && SafeStores(pre)
    ensures fuel >= 2 ==> RunUnit(t, Client(faults), pre, fuel).Result?
    ensures var r := RunUnit(t, Client(faults), pre, fuel);
      r.Result? ==> DistinctIds(r.stores.storage) && SafeStores(r.stores)
  {
    hide RunUnit, SafeStores, ValidTrigger, StartRejected, Drain, Begun, EnvOf, DistinctIds;
    TriggerEnv(t, a);
    ResultOfLoop(t, Client(faults), pre, fuel);
    BegunAboutToRun(t, a, pre);
    StartDrains(EnvOf(t), a.bookingId, faults, Begun(t, pre), t.event, fuel);
    var r := RunUnit(t, Client(faults), pre, fuel);
    if r.Result? && r.committed {
      RequestCommitted(t, a, faults, pre, fuel);
    } else if r.Result? {
      RequestRolledBack(t, a, faults, pre, fuel);
    }
  }

  /** What a committed unit of work for a request did. */
  lemma RequestRan(t: Trigger, a: Arrival, faults: Faults, pre: Stores<World>, fuel: nat)
    requires TriggerOf(t, a) && a.Request? && !StartRejected(t, pre.storage)
    requires var r := RunUnit(t, Client(faults), pre, fuel); r.Result? && r.committed
    ensures var r, claimId := RunUnit(t, Client(faults), pre, fuel), ClaimIdFor(a.bookingId);
      && a.inventoryId in pre.world.inventories && !Held(pre.world, a.inventoryId, claimId)
      && r.stores.world ==
           WithClaim(pre.world, a.inventoryId, ClaimOf(t.event)).(payments := r.stores.world.payments)
      && r.stepsRun == [REQUESTED.name, CLAIMED.name]
      && r.puts == [(INVENTORY_ID, a.inventoryId), (AMOUNT, a.amount), (CLAIM_ID, claimId)]
  {
    hide RunUnit, StartRejected, Drain, Begun, BaseInstance, WithClaim, Held;
    TriggerEnv(t, a);
    ResultOfLoop(t, Client(faults), pre, fuel);
    BegunAboutToRun(t, a, pre);
    StartDrains(EnvOf(t), a.bookingId, faults, Begun(t, pre), t.event, fuel);
  }

  lemma RequestCommitted(t: Trigger, a: Arrival, faults: Faults, pre: Stores<World>, fuel: nat)
    requires ValidTrigger(t, pre.storage) && TriggerOf(t, a) && a.Request? && !StartRejected(t, pre.storage)
    requires DistinctIds(pre.storage) && SafeStores(pre)
    requires var r := RunUnit(t, Client(faults), pre, fuel); r.Result? && r.committed
    ensures var r := RunUnit(t, Client(faults), pre, fuel); DistinctIds(r.stores.storage) && SafeStores(r.stores)
  {
    hide RunUnit, ById, Safe, StartRejected, Find, PutAll, ValidModel, CommittedInstance, SameExcept, Opened, Shape,
         Holder, WithClaim, StepOf;
    Atomicity(t, Client(faults), pre, fuel);
    TriggerEnv(t, a);
    RequestRan(t, a, faults, pre, fuel);
    var r, id, sagas := RunUnit(t, Client(faults), pre, fuel), BaseInstance(t).sagaId, ById(pre.storage);
    var left := Find(r.stores.storage, id).value;
    OneInstanceChanged(t, pre.storage, r.stores.storage, left);
    PutsOthersRecall(pre.contexts, id, r.puts);
    NotStoredYet(t, pre.storage);
    StartedShape(t, left);
    StartRecall(pre.contexts, id, a.inventoryId, a.amount, ClaimIdFor(a.bookingId));
    HolderClaims(sagas, pre.contexts, pre.world, id, left, r.stores.contexts, r.stores.world, a.inventoryId,
                 ClaimOf(t.event));
  }

  lemma RequestRolledBack(t: Trigger, a: Arrival, faults: Faults, pre: Stores<World>, fuel: nat)
    requires ValidTrigger(t, pre.storage) && TriggerOf(t, a) && a.Request? && !StartRejected(t, pre.storage)
    requires DistinctIds(pre.storage) && SafeStores(pre)
    requires var r := RunUnit(t, Client(faults), pre, fuel); r.Result? && !r.committed
    ensures var r := RunUnit(t, Client(faults), pre, fuel); DistinctIds(r.stores.storage) && SafeStores(r.stores)
  {
    hide RunUnit, ById, Safe, StartRejected, Find, PutAll, ValidModel, CommittedInstance, SameExcept, Opened, Shape,
         Holder, WithClaim, Drain, Begun;
    Atomicity(t, Client(faults), pre, fuel);
    var r, id, sagas := RunUnit(t, Client(faults), pre, fuel), BaseInstance(t).sagaId, ById(pre.storage);
    var left := Find(r.stores.storage, id).value;
    OneInstanceChanged(t, pre.storage, r.stores.storage, left);
    PutsOthersRecall(pre.contexts, id, r.puts);
    NotStoredYet(t, pre.storage);
    StartFailedShape(t, r.failure.value);
    StartFails(sagas, pre.contexts, pre.world, id, left, r.stores.contexts);
  }

  lemma NotStoredYet(t: Trigger, storage: Instances)
    requires ValidTrigger(t, storage) && DistinctIds(storage)
    ensures t.existing.None? ==> BaseInstance(t).sagaId !in ById(storage)
    ensures t.existing.Some? ==>
        BaseInstance(t).sagaId in ById(storage) && ById(storage)[BaseInstance(t).sagaId] == t.existing.value
  {
    hide ValidModel, StepOf;
  }

  /** What a unit of work for a confirmed payment wrote, and did if it committed. */
  lemma PayRan(t: Trigger, a: Arrival, faults: Faults, pre: Stores<World>, fuel: nat)
    requires TriggerOf(t, a) && a.Pay? && !StartRejected(t, pre.storage)
    ensures fuel >= 2 ==> RunUnit(t, Client(faults), pre, fuel).Result?
    ensures var r, claimId := RunUnit(t, Client(faults), pre, fuel), Recalled(pre.contexts, EnvOf(t).sagaId, CLAIM_ID);
      r.Result? ==>
        && r.puts == [(PAYMENT_ID, a.paymentId)]
        && (r.committed ==>
              && claimId.Some? && r.stepsRun == [PAID.name, CONFIRMED.name]
              && r.stores.world == pre.world.(bookings :=
                   pre.world.bookings[a.bookingId := Confirmed(a.bookingId, claimId.value, a.paymentId)]))
  {
    hide RunUnit, StartRejected, Drain, Begun, BaseInstance;
    TriggerEnv(t, a);
    ResultOfLoop(t, Client(faults), pre, fuel);
    BegunAboutToRun(t, a, pre);
    PaidDrains(EnvOf(t), a.bookingId, faults, Begun(t, pre), t.event, fuel);
  }

  lemma PayIsSafe(t: Trigger, a: Arrival, faults: Faults, pre: Stores<World>, fuel: nat)
    requires ValidTrigger(t, pre.storage) && TriggerOf(t, a) && a.Pay? && !StartRejected(t, pre.storage)
    requires DistinctIds(pre.storage) && SafeStores(pre)
    ensures fuel >= 2 ==> RunUnit(t, Client(faults), pre, fuel).Result?
    ensures var r := RunUnit(t, Client(faults), pre, fuel);
      r.Result? ==> DistinctIds(r.stores.storage) && SafeStores(r.stores)
  {
    hide RunUnit, ById, Safe, StartRejected, Find, PutAll, ValidModel, CommittedInstance, SameExcept, Opened, Shape,
         Holder, FirstUnitDone, StepOf;
    Atomicity(t, Client(faults), pre, fuel);
    TriggerEnv(t, a);
    PayRan(t, a, faults, pre, fuel);
    var r, id, sagas := RunUnit(t, Client(faults), pre, fuel), BaseInstance(t).sagaId, ById(pre.storage);
    if r.Result? {
      var left := Find(r.stores.storage, id).value;
      OneInstanceChanged(t, pre.storage, r.stores.storage, left);
      PutsOthersRecall(pre.contexts, id, r.puts);
      NotStoredYet(t, pre.storage);
      PaidRecall(pre.contexts, id, a.paymentId);
      StoredShape(sagas, pre.contexts, pre.world, id);
      if r.committed {
        SecondShape(t.existing.value, left, r.stepsRun);
      } else {
        SecondFailedShape(t.existing.value, r.failure.value, t.now);
      }
      HolderGoesOn(sagas, pre.contexts, pre.world, id, left, r.stores.contexts, r.stores.world);
    }
  }

  lemma StoredShape(sagas: Sagas, contexts: Contexts, w: World, id: SagaId)
    requires Safe(sagas, contexts, w) && id in sagas
    ensures Shape(sagas[id])
  {
  }

  lemma DeclineIsSafe(t: Trigger, a: Arrival, faults: Faults, pre: Stores<World>, fuel: nat)
    requires ValidTrigger(t, pre.storage) && TriggerOf(t, a) && a.Decline? && !StartRejected(t, pre.storage)
    requires DistinctIds(pre.storage) && SafeStores(pre)
    ensures fuel >= 2 ==> RunUnit(t, Client(faults), pre, fuel).Result?
    ensures var r := RunUnit(t, Client(faults), pre, fuel);
      r.Result? ==> DistinctIds(r.stores.storage) && SafeStores(r.stores)
  {
    hide RunUnit, ById, Safe, StartRejected, Find, PutAll, ValidModel, CommittedInstance, SameExcept, Opened, Shape,
         Holder, Drain, Begun, FirstUnitDone, WithoutClaim;
    Atomicity(t, Client(faults), pre, fuel);
    TriggerEnv(t, a);
    ResultOfLoop(t, Client(faults), pre, fuel);
    BegunAboutToRun(t, a, pre);
    DeclinedDrains(EnvOf(t), a.bookingId, faults, Begun(t, pre), t.event, fuel);
    var r, id, sagas := RunUnit(t, Client(faults), pre, fuel), BaseInstance(t).sagaId, ById(pre.storage);
    if r.Result? {
      var left := Find(r.stores.storage, id).value;
      OneInstanceChanged(t, pre.storage, r.stores.storage, left);
      PutsOthersRecall(pre.contexts, id, r.puts);
      NotStoredYet(t, pre.storage);
      PaidRecall(pre.contexts, id, "");
      StoredShape(sagas, pre.contexts, pre.world, id);
      if r.committed {
        SecondShape(t.existing.value, left, r.stepsRun);
        HolderReleases(sagas, pre.contexts, pre.world, id, left, r.stores.contexts,
                       Recalled(pre.contexts, id, INVENTORY_ID).value, Recalled(pre.contexts, id, CLAIM_ID).value);
      } else {
        SecondFailedShape(t.existing.value, r.failure.value, t.now);
        HolderGoesOn(sagas, pre.contexts, pre.world, id, left, r.stores.contexts, r.stores.world);
      }
    }
  }

  // ----- every run of the protocol ---------------------------------------------------------------------------

  lemma SagaIsValid(ids: nat -> SagaId)
    requires forall m: nat, n: nat :: m != n ==> ids(m) != ids(n)
    ensures ValidConfig(ConfigOf(ids))
  {
  }

  lemma UnitIsSafe(t: Trigger, a: Arrival, faults: Faults, pre: Stores<World>, fuel: nat)
    requires ValidTrigger(t, pre.storage) && TriggerOf(t, a) && DistinctIds(pre.storage) && SafeStores(pre)
    ensures fuel >= 2 ==> RunUnit(t, Client(faults), pre, fuel).Result?
    ensures var r := RunUnit(t, Client(faults), pre, fuel);
      r.Result? ==> DistinctIds(r.stores.storage) && SafeStores(r.stores)
  {
    hide SafeStores, TriggerOf, ValidTrigger, DistinctIds, Drain, RollBack, Settle, Commit, Begun;
    if !StartRejected(t, pre.storage) {
      match a
      case Request(_, _, _, _, _) => RequestIsSafe(t, a, faults, pre, fuel);
      case Pay(_, _) => PayIsSafe(t, a, faults, pre, fuel);
      case Decline(_, _, _) => DeclineIsSafe(t, a, faults, pre, fuel);
    }
  }

  lemma RunIsSafe(ids: nat -> SagaId, a: Arrival, now: int, faults: Faults, fuel: nat, existing: Option<SagaInstance>,
                  s: HarnessState<World>)
    requires ValidConfig(ConfigOf(ids)) && Inv(ConfigOf(ids), s) && SafeStores(s.stores)
    requires existing.None? <==> a.Request?
    requires existing.Some? ==>
               && Active(existing.value) && Find(s.stores.storage, existing.value.sagaId) == existing
               && Associated(existing.value, BOOKING_ID, a.bookingId)
    ensures EventOf(a).className in SAGA.steps
    ensures var reply := RunUnitFor(ConfigOf(ids), DeliveryOf(a, now, faults, fuel), SAGA, existing, a.bookingId, s,
                                    Again(ConfigOf(ids), DeliveryOf(a, now, faults, fuel)));
      && (!reply.NeverReturns? ==>
            reply.Reports? && DistinctIds(reply.state.stores.storage) && SafeStores(reply.state.stores))
      && (fuel >= 2 ==> !reply.NeverReturns?)
  {
    hide RunUnit, SafeStores, Find, ValidModel, NoRivals, FreshFrom, Again;
    assert SAGA.steps[EventOf(a).className] == StepFor(a);
    assert ConfigOf(ids).sagas[0] == SAGA;
    var d, cfg := DeliveryOf(a, now, faults, fuel), ConfigOf(ids);
    var t := TriggerFor(cfg, d, SAGA, existing, a.bookingId, s.nextId);
    TriggerIsValid(cfg, d, SAGA, existing, a.bookingId, s);
    assert TriggerOf(t, a);
    UnitIsSafe(t, a, faults, s.stores, fuel);
  }

  lemma ArrivalReaches(ids: nat -> SagaId, a: Arrival, now: int, faults: Faults, fuel: nat, s: HarnessState<World>)
    ensures EventOf(a).className in SAGA.steps && SAGA.steps[EventOf(a).className] == StepFor(a)
    ensures var d, cfg := DeliveryOf(a, now, faults, fuel), ConfigOf(ids);
      var reply, all := DeliverTo(cfg, d, SAGA, s, Again(cfg, d)), DeliverAll(cfg, d, s);
      && (reply.NeverReturns? ==> all.NeverReturns?)
      && (!reply.NeverReturns? ==> !all.NeverReturns? && all.state == reply.state)
      && (reply.Reports? ==>
            all == Reports(reply.state, if reply.reports == [] then [Ignored] else reply.reports))
  {
    hide DeliverTo, Again;
    var d, cfg := DeliveryOf(a, now, faults, fuel), ConfigOf(ids);
    assert cfg.sagas[1..] == [];
    var first := DeliverTo(cfg, d, SAGA, s, Again(cfg, d));
    if first.Reports? {
      assert DeliverToSagas(cfg, d, cfg.sagas[1..], first.state, Again(cfg, d)) == Reports(first.state, []);
      assert first.reports + [] == first.reports;
    }
  }

  /** One arrival, whatever fails while it is dealt with. */
  lemma ArrivalIsSafe(ids: nat -> SagaId, a: Arrival, now: int, faults: Faults, fuel: nat, s: HarnessState<World>)
    requires ValidConfig(ConfigOf(ids)) && Inv(ConfigOf(ids), s) && SafeStores(s.stores)
    ensures var reply := DeliverAll(ConfigOf(ids), DeliveryOf(a, now, faults, fuel), s);
      && (!reply.NeverReturns? ==> Inv(ConfigOf(ids), reply.state) && SafeStores(reply.state.stores))
      && (fuel >= 2 ==> !reply.NeverReturns?)
  {
    hide RunUnitFor, DeliverAll, RunForEach, SafeStores, Find, ValidConfig, FreshFrom, NoRivals, AllValid,
         Correlated, ActiveOnly, DistinctIds, Again;
    var d, cfg := DeliveryOf(a, now, faults, fuel), ConfigOf(ids);
    DeliverAllReports(cfg, d, s);
    ArrivalReaches(ids, a, now, faults, fuel, s);
    if a.Request? {
      RunIsSafe(ids, a, now, faults, fuel, None, s);
    } else {
      var storage := s.stores.storage;
      AtMostOneActive(storage, SAGA, StepFor(a), a.bookingId);
      CorrelatedMembers(storage, SAGA, StepFor(a), a.bookingId);
      var active := ActiveOnly(Correlated(storage, SAGA, StepFor(a), a.bookingId));
      if active != [] {
        assert active[0] in active;
        StoredOnce(storage, active[0]);
        OneInstance(cfg, d, SAGA, a.bookingId, active, s, Again(cfg, d));
        RunIsSafe(ids, a, now, faults, fuel, Some(active[0]), s);
      }
    }
  }

  datatype Case = Case(arrival: Arrival, now: int, faults: Faults, fuel: nat)

  function Arrivals(cases: seq<Case>): (actions: seq<Action<World>>)
    ensures |actions| == |cases|
  {
    if cases == [] then []
    else
      var last := cases[|cases| - 1];
      Arrivals(cases[..|cases| - 1]) + [Arrives(DeliveryOf(last.arrival, last.now, last.faults, last.fuel))]
  }

  lemma {:induction false} EveryRunIsSafe(ids: nat -> SagaId, cases: seq<Case>, s: HarnessState<World>)
    requires ValidConfig(ConfigOf(ids)) && Inv(ConfigOf(ids), s) && SafeStores(s.stores)
    ensures var run := ActEach(ConfigOf(ids), Arrivals(cases), s);
      && (run.Run? ==> Inv(ConfigOf(ids), run.state) && SafeStores(run.state.stores))
      && ((forall i :: 0 <= i < |cases| ==> cases[i].fuel >= 2) ==> run.Run?)
  {
    hide DeliverAll, SafeStores, ValidConfig, FreshFrom, NoRivals, AllValid, DistinctIds;
    if cases != [] {
      var last, actions := cases[|cases| - 1], Arrivals(cases);
      assert actions[..|actions| - 1] == Arrivals(cases[..|cases| - 1]);
      EveryRunIsSafe(ids, cases[..|cases| - 1], s);
      var before := ActEach(ConfigOf(ids), Arrivals(cases[..|cases| - 1]), s);
      if before.Run? {
        ArrivalIsSafe(ids, last.arrival, last.now, last.faults, last.fuel, before.state);
      }
    }
  }

  /** Before the first booking: no saga, no booking, no claim. */
  predicate Initial(s: HarnessState<World>) {
    && s.stores.storage == [] && s.stores.world.bookings == map[]
    && forall i <- s.stores.world.inventories :: s.stores.world.inventories[i] == map[]
  }

  lemma InitialIsSafe(ids: nat -> SagaId, s: HarnessState<World>)
    requires Initial(s)
    ensures Inv(ConfigOf(ids), s) && SafeStores(s.stores)
  {
  }

  /**
   * No unit of work of this saga takes more than two steps, so every run ends; and, from the start, after any
   * sequence of requests, payments and refusals with any failures injected: each held claim
   * has exactly one owner, RUNNING, confirmed, or FAILED with the first unit of work done; and each stored booking's
   * claim is held in the inventory its saga recorded.
   */
  lemma ProtocolIsSafe(ids: nat -> SagaId, cases: seq<Case>, s: HarnessState<World>)
    requires Initial(s) && forall m: nat, n: nat :: m != n ==> ids(m) != ids(n)
    ensures (forall i :: 0 <= i < |cases| ==> cases[i].fuel >= 2) ==>
              ActEach(ConfigOf(ids), Arrivals(cases), s).Run?
    ensures var run := ActEach(ConfigOf(ids), Arrivals(cases), s);
      run.Run? ==>
        && DistinctIds(run.state.stores.storage)
        && var sagas, contexts, w := ById(run.state.stores.storage), run.state.stores.contexts, run.state.stores.world;
           && (forall inventoryId, claimId :: Held(w, inventoryId, claimId) ==>
                 exists id :: SoleOwner(sagas, contexts, id, inventoryId, claimId))
           && (forall b <- w.bookings :: exists id :: BackedBy(sagas, contexts, w, id, w.bookings[b]))
  {
    hide ActEach, Safe, ById, SoleOwner, BackedBy, Held, ValidConfig, FreshFrom, NoRivals, AllValid;
    SagaIsValid(ids);
    InitialIsSafe(ids, s);
    EveryRunIsSafe(ids, cases, s);
    var run := ActEach(ConfigOf(ids), Arrivals(cases), s);
    if run.Run? {
      var sagas, contexts, w := ById(run.state.stores.storage), run.state.stores.contexts, run.state.stores.world;
      forall inventoryId, claimId | Held(w, inventoryId, claimId)
        ensures exists id :: SoleOwner(sagas, contexts, id, inventoryId, claimId)
      {
        EachClaimHasOneOwner(sagas, contexts, w, inventoryId, claimId);
      }
      forall b | b in w.bookings ensures exists id :: BackedBy(sagas, contexts, w, id, w.bookings[b]) {
        EachBookingIsBacked(sagas, contexts, w, b);
      }
    }
  }
}
