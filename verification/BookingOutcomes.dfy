/**
 * When each unit of work of the booking saga commits, and what it reports when it does not; and that, whatever failed
 * before, an arrival without failures does what it is there for.
 */
module BookingOutcomes {
  import opened Spi
  import opened InMemoryStorage
  import opened SagaLifecycle
  import opened UnitOfWork
  import opened ClientCode
  import opened UnitGuarantees
  import opened UnitOutcomes
  import opened EventConservation
  import opened Harness
  import opened Booking
  import opened BookingSteps
  import opened BookingSafety
  import opened BookingProtocol

  // ----- what one pass throws --------------------------------------------------------------------------------

  /** A failure is armed for the step about to run. */
  predicate Armed(env: Env, faults: Faults, u: Unit<World>)
    requires u.queue != []
  {
    faults(env, Observed(Poll(u)), u.queue[0].event)
  }

  predicate Passing(t: Trigger, pre: Stores<World>, u: Unit<World>) {
    Looping(t, pre, u) && u.queue != [] && !u.ended && t.model.StepNames() <= BaseInstance(t).steps.Keys
  }

  /** A pass throws what the step's code throws, and nothing else if that did not mark the unit of work. */
  lemma PassThrows(t: Trigger, faults: Faults, pre: Stores<World>, u: Unit<World>)
    requires Passing(t, pre, u)
    ensures var env := EnvOf(t);
      var run, after := RunCode(env, CodeOf(env, faults, u), Poll(u)), RunStep(env, Client(faults), u);
      && (run.finish.Throws? ==> after.thrown == Some(run.finish.cause))
      && (!run.finish.Throws? && run.unit.rollbackOnly.None? ==> after.thrown.None?)
      && (after.thrown.None? ==> Looping(t, pre, after.unit))
  {
    hide RunCode, StepCode, LoopOk, ThrownOk, RunStep, Opened, BaseInstance, EnvOf, FailureInCode;
    var env, event := EnvOf(t), u.queue[0].event;
    SameCode(faults(env, Observed(Poll(u)), event), env, Poll(u), event);
    CodeMarks(env, CodeOf(env, faults, u), Poll(u));
    CleanStepReturns(t, Client(faults), pre, u);
    StepThrows(env, Client(faults), u);
    StepRanOk(env, Client(faults), Opened(t, pre.storage), pre.contexts, BaseInstance(t), TriggerEntry(t), u);
  }

  lemma RecordedUnmarked(env: Env, u: Unit<World>, changed: World, event: Event)
    requires Recordable(event)
    ensures Booking.Recorded(env, u, changed, event).rollbackOnly == u.rollbackOnly
  {
  }

  lemma PolledFacts(t: Trigger, pre: Stores<World>, u: Unit<World>)
    requires Passing(t, pre, u)
    ensures var p := Poll(u); p.rollbackOnly.None? && p.world == u.world && p.contexts == u.contexts
  {
    hide InstanceOk, StepsOk, QueueOk, ContextsOk, ValidModel, StepOf;
  }

  lemma RequestedThrows(t: Trigger, bookingId: string, faults: Faults, pre: Stores<World>, u: Unit<World>)
    requires Passing(t, pre, u) && EnvOf(t).routes == ROUTES && u.queue[0].event.className == REQUESTED.eventClass
    requires Property(u.queue[0].event, BOOKING_ID) == bookingId
    ensures var inventoryId, after := Property(u.queue[0].event, INVENTORY_ID), RunStep(EnvOf(t), Client(faults), u);
      && after.thrown == (if inventoryId !in u.world.inventories then Some(NOT_FOUND)
                          else if Held(u.world, inventoryId, ClaimIdFor(bookingId)) then Some(ILLEGAL_STATE)
                          else if Armed(EnvOf(t), faults, u) then Some(INJECTED) else None)
      && (after.thrown.None? ==> Looping(t, pre, after.unit))
  {
    hide RunStep, RunCode, StepCode, Looping, EnvOf, Booking.Recorded, WithState, Poll, Held, WithClaim, Observed;
    var env, event := EnvOf(t), u.queue[0].event;
    PolledFacts(t, pre, u);
    PassThrows(t, faults, pre, u);
    RequestedRuns(Armed(env, faults, u), env, Poll(u), event);
    var inventoryId, claim := Property(event, INVENTORY_ID), ClaimOf(event);
    RequestingUnmarked(env, Poll(u), event);
    if inventoryId in u.world.inventories {
      RecordedUnmarked(env, Requesting(env, Poll(u), event), WithClaim(u.world, inventoryId, claim),
                       AvailabilityClaimed(inventoryId, claim.bookingId, claim.claimId));
    }
  }

  lemma RequestingUnmarked(env: Env, u: Unit<World>, event: Event)
    ensures Requesting(env, u, event).rollbackOnly == u.rollbackOnly
  {
  }

  lemma ClaimedThrows(t: Trigger, faults: Faults, pre: Stores<World>, u: Unit<World>)
    requires Passing(t, pre, u) && EnvOf(t).routes == ROUTES && u.queue[0].event.className == CLAIMED.eventClass
    ensures RunStep(EnvOf(t), Client(faults), u).thrown
            == if Remembered(EnvOf(t), u, AMOUNT).None? then Some(ILLEGAL_STATE)
               else if Armed(EnvOf(t), faults, u) then Some(INJECTED) else None
  {
    hide RunStep, RunCode, StepCode, Looping, EnvOf, Booking.Recorded, WithState, Poll, Observed;
    var env, event := EnvOf(t), u.queue[0].event;
    PolledFacts(t, pre, u);
    PassThrows(t, faults, pre, u);
    ClaimedRuns(Armed(env, faults, u), env, Poll(u), event);
    var amount, bookingId := Remembered(env, Poll(u), AMOUNT), Property(event, BOOKING_ID);
    if amount.Some? {
      var payment := Payment(PaymentIdFor(bookingId), bookingId, amount.value);
      PutUnmarked(env, CLAIM_ID, Property(event, CLAIM_ID), Poll(u));
      RecordedUnmarked(env, WithState(env, CLAIM_ID, Property(event, CLAIM_ID), Poll(u)),
                       u.world.(payments := u.world.payments[payment.paymentId := payment]),
                       PaymentInitiated(payment.paymentId, payment.bookingId, payment.amount));
    }
  }

  lemma PutUnmarked(env: Env, name: string, value: string, u: Unit<World>)
    ensures WithState(env, name, value, u).rollbackOnly == u.rollbackOnly
  {
  }

  lemma PaidThrows(t: Trigger, faults: Faults, pre: Stores<World>, u: Unit<World>)
    requires Passing(t, pre, u) && EnvOf(t).routes == ROUTES && u.queue[0].event.className == PAID.eventClass
    ensures var after := RunStep(EnvOf(t), Client(faults), u);
      && after.thrown == (if Remembered(EnvOf(t), u, CLAIM_ID).None? then Some(ILLEGAL_STATE)
                          else if Armed(EnvOf(t), faults, u) then Some(INJECTED) else None)
      && (after.thrown.None? ==> Looping(t, pre, after.unit))
  {
    hide RunStep, RunCode, StepCode, Looping, EnvOf, Booking.Recorded, WithState, Poll, Observed;
    var env, event := EnvOf(t), u.queue[0].event;
    PolledFacts(t, pre, u);
    PassThrows(t, faults, pre, u);
    PaidRuns(Armed(env, faults, u), env, Poll(u), event);
    var claimId, paymentId := Remembered(env, Poll(u), CLAIM_ID), Property(event, PAYMENT_ID);
    if claimId.Some? {
      PutUnmarked(env, PAYMENT_ID, paymentId, Poll(u));
      RecordedUnmarked(env, WithState(env, PAYMENT_ID, paymentId, Poll(u)), u.world,
                       BookingConfirmed(Property(event, BOOKING_ID), claimId.value, paymentId));
    }
  }

  lemma ConfirmedThrows(t: Trigger, faults: Faults, pre: Stores<World>, u: Unit<World>)
    requires Passing(t, pre, u) && u.queue[0].event.className == CONFIRMED.eventClass
    ensures RunStep(EnvOf(t), Client(faults), u).thrown.None?
  {
    hide RunStep, RunCode, StepCode, Looping, EnvOf, Poll, Observed;
    PolledFacts(t, pre, u);
    PassThrows(t, faults, pre, u);
    ConfirmedRuns(Armed(EnvOf(t), faults, u), EnvOf(t), Poll(u), u.queue[0].event);
  }

  lemma DeclinedThrows(t: Trigger, faults: Faults, pre: Stores<World>, u: Unit<World>)
    requires Passing(t, pre, u) && EnvOf(t).routes == ROUTES && u.queue[0].event.className == DECLINED.eventClass
    ensures var inventoryId, claimId := Remembered(EnvOf(t), u, INVENTORY_ID), Remembered(EnvOf(t), u, CLAIM_ID);
      RunStep(EnvOf(t), Client(faults), u).thrown
        == if inventoryId.None? || claimId.None? then Some(ILLEGAL_STATE)
           else if inventoryId.value !in u.world.inventories then Some(NOT_FOUND)
           else if !Held(u.world, inventoryId.value, claimId.value) then Some(ILLEGAL_STATE)
           else if Armed(EnvOf(t), faults, u) then Some(INJECTED) else None
  {
    hide RunStep, RunCode, StepCode, Looping, EnvOf, Booking.Recorded, Poll, WithoutClaim, Observed;
    var env, event := EnvOf(t), u.queue[0].event;
    PolledFacts(t, pre, u);
    PassThrows(t, faults, pre, u);
    DeclinedRuns(Armed(env, faults, u), env, Poll(u), event);
    var inventoryId, claimId := Remembered(env, Poll(u), INVENTORY_ID), Remembered(env, Poll(u), CLAIM_ID);
    if inventoryId.Some? && claimId.Some? && Held(u.world, inventoryId.value, claimId.value) {
      RecordedUnmarked(env, Poll(u), WithoutClaim(u.world, inventoryId.value, claimId.value),
                       AvailabilityReleased(inventoryId.value, Property(event, BOOKING_ID), claimId.value));
    }
  }

  // ----- when a unit of work commits -------------------------------------------------------------------------

  lemma CommitsUnlessThrown(t: Trigger, faults: Faults, pre: Stores<World>, fuel: nat)
    requires ValidTrigger(t, pre.storage) && t.model.StepNames() <= BaseInstance(t).steps.Keys
    requires !StartRejected(t, pre.storage) && t.construction.None?
    ensures Looping(t, pre, Begun(t, pre))
    ensures var r, ran := RunUnit(t, Client(faults), pre, fuel), Drain(EnvOf(t), Client(faults), Begun(t, pre), fuel);
      r.Result? ==> ran.Ran? && (r.committed <==> ran.thrown.None?) && (!r.committed ==> r.cause == ran.thrown)
  {
    hide RunUnit, Looping, StartRejected, Begun, Drain, CleanRun, EnvOf, ValidTrigger, BaseInstance;
    BegunLooping(t, pre);
    ResultOfLoop(t, Client(faults), pre, fuel);
    CommitsIffClean(t, Client(faults), pre, fuel);
    CleanRunDrains(t, Client(faults), pre, Begun(t, pre), fuel);
  }

  lemma FirstThrows(env: Env, oracle: Oracle<World>, u: Unit<World>, fuel: nat)
    requires u.queue != [] && !u.ended && fuel > 0 && RunStep(env, oracle, u).thrown.Some?
    ensures var first := RunStep(env, oracle, u); Drain(env, oracle, u, fuel) == Ran(first.unit, first.thrown)
  {
    hide RunStep;
  }

  lemma OnePass(env: Env, oracle: Oracle<World>, u: Unit<World>, fuel: nat)
    requires u.queue != [] && !u.ended && fuel > 0 && RunStep(env, oracle, u).unit.ended
    ensures var first := RunStep(env, oracle, u); Drain(env, oracle, u, fuel) == Ran(first.unit, first.thrown)
  {
    hide RunStep;
    assert Drain(env, oracle, RunStep(env, oracle, u).unit, fuel - 1) == Ran(RunStep(env, oracle, u).unit, None);
  }

  /** A failure is armed for the step that the first one triggers. */
  predicate ArmedNext(env: Env, faults: Faults, u: Unit<World>)
    requires u.queue != []
  {
    var next := RunStep(env, Client(faults), u).unit;
    next.queue != [] && Armed(env, faults, next)
  }

  /**
   * A request commits iff its inventory is known, the claim is free there, and no failure is armed for either of its
   * steps; otherwise it reports the first of these that fails.
   */
  lemma RequestCommitsIff(t: Trigger, a: Arrival, faults: Faults, pre: Stores<World>, fuel: nat)
    requires ValidTrigger(t, pre.storage) && TriggerOf(t, a) && a.Request? && !StartRejected(t, pre.storage)
    requires fuel >= 2
    ensures Begun(t, pre).queue != []
    ensures var r, u, env := RunUnit(t, Client(faults), pre, fuel), Begun(t, pre), EnvOf(t);
      r.Result?
      && (r.committed <==>
            && a.inventoryId in pre.world.inventories
            && ClaimIdFor(a.bookingId) !in pre.world.inventories[a.inventoryId]
            && !Armed(env, faults, u) && !ArmedNext(env, faults, u))
      && (!r.committed ==>
            r.cause == if a.inventoryId !in pre.world.inventories then Some(NOT_FOUND)
                       else if ClaimIdFor(a.bookingId) in pre.world.inventories[a.inventoryId] then Some(ILLEGAL_STATE)
                       else Some(INJECTED))
  {
    hide RunUnit, StartRejected, Drain, RunStep, BaseInstance, EnvOf, ValidTrigger, Looping, Begun, Armed, ClaimIdFor,
         BookingEnv, WithClaim;
    var u, env := Begun(t, pre), EnvOf(t);
    TriggerEnv(t, a);
    EnvRoutes(env, a.bookingId);
    StartsWithAllSteps(t);
    CommitsUnlessThrown(t, faults, pre, fuel);
    ResultOfLoop(t, Client(faults), pre, fuel);
    BegunAboutToRun(t, a, pre);
    StartDrains(env, a.bookingId, faults, u, t.event, fuel);
    RequestedThrows(t, a.bookingId, faults, pre, u);
    var first := RunStep(env, Client(faults), u);
    if first.thrown.Some? {
      FirstThrows(env, Client(faults), u, fuel);
    } else {
      RequestedPass(env, a.bookingId, faults, u);
      ClaimedThrows(t, faults, pre, first.unit);
      ClaimedPass(env, a.bookingId, faults, first.unit);
      TwoPasses(env, Client(faults), u, fuel);
    }
  }

  lemma StartsWithAllSteps(t: Trigger)
    ensures t.existing.None? ==> t.model.StepNames() <= BaseInstance(t).steps.Keys
  {
  }

  /** A confirmation commits iff the claim was remembered and no failure is armed for its step. */
  lemma PayCommitsIff(t: Trigger, a: Arrival, faults: Faults, pre: Stores<World>, fuel: nat)
    requires ValidTrigger(t, pre.storage) && TriggerOf(t, a) && a.Pay?
    requires SAGA.StepNames() <= BaseInstance(t).steps.Keys && fuel >= 2
    ensures Begun(t, pre).queue != []
    ensures var r, claimId := RunUnit(t, Client(faults), pre, fuel), Recalled(pre.contexts, EnvOf(t).sagaId, CLAIM_ID);
      r.Result?
      && (r.committed <==> claimId.Some? && !Armed(EnvOf(t), faults, Begun(t, pre)))
      && (!r.committed ==> r.cause == if claimId.None? then Some(ILLEGAL_STATE) else Some(INJECTED))
  {
    hide RunUnit, Drain, RunStep, BaseInstance, EnvOf, ValidTrigger, Looping, Begun, Armed, BookingEnv;
    var u, env := Begun(t, pre), EnvOf(t);
    TriggerEnv(t, a);
    EnvRoutes(env, a.bookingId);
    CommitsUnlessThrown(t, faults, pre, fuel);
    ResultOfLoop(t, Client(faults), pre, fuel);
    BegunAboutToRun(t, a, pre);
    PaidDrains(env, a.bookingId, faults, u, t.event, fuel);
    PaidThrows(t, faults, pre, u);
    var first := RunStep(env, Client(faults), u);
    if first.thrown.Some? {
      FirstThrows(env, Client(faults), u, fuel);
    } else {
      PaidPass(env, a.bookingId, faults, u);
      ConfirmedThrows(t, faults, pre, first.unit);
      ConfirmedPass(env, faults, first.unit);
      TwoPasses(env, Client(faults), u, fuel);
    }
  }

  /** A refusal commits iff the claim was remembered, is held, and no failure is armed for its step. */
  lemma DeclineCommitsIff(t: Trigger, a: Arrival, faults: Faults, pre: Stores<World>, fuel: nat)
    requires ValidTrigger(t, pre.storage) && TriggerOf(t, a) && a.Decline?
    requires SAGA.StepNames() <= BaseInstance(t).steps.Keys && fuel >= 2
    ensures Begun(t, pre).queue != []
    ensures var r, id := RunUnit(t, Client(faults), pre, fuel), EnvOf(t).sagaId;
      var inventoryId, claimId := Recalled(pre.contexts, id, INVENTORY_ID), Recalled(pre.contexts, id, CLAIM_ID);
      r.Result?
      && (r.committed <==>
            && inventoryId.Some? && claimId.Some? && inventoryId.value in pre.world.inventories
            && claimId.value in pre.world.inventories[inventoryId.value]
            && !Armed(EnvOf(t), faults, Begun(t, pre)))
      && (!r.committed ==>
            r.cause == if inventoryId.None? || claimId.None? then Some(ILLEGAL_STATE)
                       else if inventoryId.value !in pre.world.inventories then Some(NOT_FOUND)
                       else if claimId.value !in pre.world.inventories[inventoryId.value] then Some(ILLEGAL_STATE)
                       else Some(INJECTED))
  {
    hide RunUnit, Drain, RunStep, BaseInstance, EnvOf, ValidTrigger, Looping, Begun, Armed, BookingEnv, WithoutClaim;
    var u, env := Begun(t, pre), EnvOf(t);
    TriggerEnv(t, a);
    EnvRoutes(env, a.bookingId);
    CommitsUnlessThrown(t, faults, pre, fuel);
    ResultOfLoop(t, Client(faults), pre, fuel);
    BegunAboutToRun(t, a, pre);
    DeclinedDrains(env, a.bookingId, faults, u, t.event, fuel);
    DeclinedThrows(t, faults, pre, u);
    var first := RunStep(env, Client(faults), u);
    if first.thrown.Some? {
      FirstThrows(env, Client(faults), u, fuel);
    } else {
      DeclinedPass(env, a.bookingId, faults, u);
      OnePass(env, Client(faults), u, fuel);
    }
  }

  // ----- an arrival without failures -------------------------------------------------------------------------

  const CALM: Faults := (env: Env, u: Unit<World>, event: Event) => false

  /** What an arrival needs: a request a free claim and no saga of that booking under way, the others such a saga. */
  predicate Ready(a: Arrival, s: Stores<World>) {
    match a
    case Request(bookingId, inventoryId, _, _, _) =>
      && inventoryId in s.world.inventories && ClaimIdFor(bookingId) !in s.world.inventories[inventoryId]
      && !exists x <- s.storage :: x.status == SagaStatus.Running && BookingOf(x) == bookingId
    case Pay(_, bookingId) => exists x <- s.storage :: x.status == SagaStatus.Running && BookingOf(x) == bookingId
    case Decline(_, bookingId, _) =>
      exists x <- s.storage :: x.status == SagaStatus.Running && BookingOf(x) == bookingId
  }

  /** What it is there for: the claim is held, the booking is stored, or the claim is released. */
  predicate DoneFor(a: Arrival, x: SagaInstance, s: Stores<World>) {
    && BookingOf(x) == a.bookingId
    && match a
       case Request(bookingId, inventoryId, _, _, _) =>
         && x.status == SagaStatus.Running && Recalled(s.contexts, x.sagaId, INVENTORY_ID) == Some(inventoryId)
         && Held(s.world, inventoryId, ClaimIdFor(bookingId))
       case Pay(paymentId, bookingId) =>
         && x.status == SagaStatus.Completed && x.outcome == Some(CONFIRMED.name)
         && bookingId in s.world.bookings && s.world.bookings[bookingId].paymentId == paymentId
       case Decline(_, bookingId, _) =>
         && x.status == SagaStatus.Completed && x.outcome == Some(DECLINED.name)
         && Recalled(s.contexts, x.sagaId, INVENTORY_ID).Some?
         && !Held(s.world, Recalled(s.contexts, x.sagaId, INVENTORY_ID).value, ClaimIdFor(bookingId))
  }

  ghost predicate Done(a: Arrival, s: Stores<World>) {
    exists x <- s.storage :: DoneFor(a, x, s)
  }

  lemma {:induction false} FoundIsStored(s: Instances, id: SagaId)
    ensures Find(s, id).Some? ==> Find(s, id).value in s && Find(s, id).value.sagaId == id
  {
    if s != [] {
      FoundIsStored(s[1..], id);
    }
  }

  lemma RequestDone(t: Trigger, a: Arrival, faults: Faults, pre: Stores<World>, fuel: nat)
    requires ValidTrigger(t, pre.storage) && TriggerOf(t, a) && a.Request? && !StartRejected(t, pre.storage)
    requires var r := RunUnit(t, Client(faults), pre, fuel); r.Result? && r.committed
    ensures Done(a, RunUnit(t, Client(faults), pre, fuel).stores)
  {
    hide RunUnit, StartRejected, Find, PutAll, ValidModel, CommittedInstance, SameExcept, Opened, WithClaim, StepOf;
    Atomicity(t, Client(faults), pre, fuel);
    TriggerEnv(t, a);
    RequestRan(t, a, faults, pre, fuel);
    var r, id := RunUnit(t, Client(faults), pre, fuel), BaseInstance(t).sagaId;
    var left := Find(r.stores.storage, id).value;
    FoundIsStored(r.stores.storage, id);
    StartRecall(pre.contexts, id, a.inventoryId, a.amount, ClaimIdFor(a.bookingId));
    StartedRuns(t, left);
    ClaimIsHeld(pre.world, a.inventoryId, ClaimOf(t.event));
    assert DoneFor(a, left, r.stores);
  }

  lemma StartedRuns(t: Trigger, final: SagaInstance)
    requires t.existing.None? && t.model == SAGA && t.step.associationProperty == BOOKING_ID
    requires CommittedInstance(SAGA, StartedInstance(t), final, [REQUESTED.name, CLAIMED.name])
    ensures final.status == SagaStatus.Running && BookingOf(final) == t.value
  {
    hide IsEndStep;
    EndSteps(CLAIMED.name);
  }

  lemma ClaimIsHeld(w: World, inventoryId: string, claim: Claim)
    requires inventoryId in w.inventories
    ensures Held(WithClaim(w, inventoryId, claim), inventoryId, claim.claimId)
  {
  }

  lemma PayDone(t: Trigger, a: Arrival, faults: Faults, pre: Stores<World>, fuel: nat)
    requires ValidTrigger(t, pre.storage) && TriggerOf(t, a) && a.Pay?
    requires var r := RunUnit(t, Client(faults), pre, fuel); r.Result? && r.committed
    ensures Done(a, RunUnit(t, Client(faults), pre, fuel).stores)
  {
    hide RunUnit, Find, PutAll, ValidModel, CommittedInstance, SameExcept, Opened, StepOf;
    Atomicity(t, Client(faults), pre, fuel);
    TriggerEnv(t, a);
    PayRan(t, a, faults, pre, fuel);
    var r, id := RunUnit(t, Client(faults), pre, fuel), BaseInstance(t).sagaId;
    var left := Find(r.stores.storage, id).value;
    FoundIsStored(r.stores.storage, id);
    EndedIn(BaseInstance(t), left, r.stepsRun);
    assert DoneFor(a, left, r.stores);
  }

  lemma EndedIn(base: SagaInstance, final: SagaInstance, stepsRun: seq<StepName>)
    requires CommittedInstance(SAGA, base, final, stepsRun)
    requires stepsRun == [PAID.name, CONFIRMED.name] || stepsRun == [DECLINED.name]
    ensures final.status == SagaStatus.Completed && BookingOf(final) == BookingOf(base)
    ensures final.outcome == Some(stepsRun[|stepsRun| - 1])
  {
    hide IsEndStep;
    EndSteps(stepsRun[|stepsRun| - 1]);
  }

  lemma DeclineDone(t: Trigger, a: Arrival, faults: Faults, pre: Stores<World>, fuel: nat)
    requires ValidTrigger(t, pre.storage) && TriggerOf(t, a) && a.Decline? && fuel >= 2
    requires Recalled(pre.contexts, EnvOf(t).sagaId, CLAIM_ID) == Some(ClaimIdFor(a.bookingId))
    requires var r := RunUnit(t, Client(faults), pre, fuel); r.Result? && r.committed
    ensures Done(a, RunUnit(t, Client(faults), pre, fuel).stores)
  {
    hide RunUnit, Find, PutAll, ValidModel, CommittedInstance, SameExcept, Opened, StepOf, Begun, Drain, WithoutClaim,
         Held, ClaimIdFor;
    Atomicity(t, Client(faults), pre, fuel);
    TriggerEnv(t, a);
    ResultOfLoop(t, Client(faults), pre, fuel);
    BegunAboutToRun(t, a, pre);
    DeclinedDrains(EnvOf(t), a.bookingId, faults, Begun(t, pre), t.event, fuel);
    var r, id := RunUnit(t, Client(faults), pre, fuel), BaseInstance(t).sagaId;
    var left := Find(r.stores.storage, id).value;
    FoundIsStored(r.stores.storage, id);
    EndedIn(BaseInstance(t), left, r.stepsRun);
    var inventoryId := Recalled(pre.contexts, id, INVENTORY_ID);
    PaidRecall(pre.contexts, id, "");
    NotHeldWithout(pre.world, inventoryId.value, ClaimIdFor(a.bookingId));
    assert DoneFor(a, left, r.stores);
  }

  lemma NotHeldWithout(w: World, inventoryId: string, claimId: string)
    requires Held(w, inventoryId, claimId)
    ensures !Held(WithoutClaim(w, inventoryId, claimId), inventoryId, claimId)
  {
  }

  /** A saga under way has all its steps, remembers its claim, and the claim is held. */
  lemma UnderWay(t: Trigger, a: Arrival, pre: Stores<World>)
    requires ValidTrigger(t, pre.storage) && TriggerOf(t, a) && !a.Request?
    requires DistinctIds(pre.storage) && SafeStores(pre)
    ensures SAGA.StepNames() <= BaseInstance(t).steps.Keys
    ensures var id := EnvOf(t).sagaId;
      var inventoryId, claimId := Recalled(pre.contexts, id, INVENTORY_ID), Recalled(pre.contexts, id, CLAIM_ID);
      && inventoryId.Some? && claimId == Some(ClaimIdFor(a.bookingId)) && inventoryId.value in pre.world.inventories
      && claimId.value in pre.world.inventories[inventoryId.value]
  {
    hide ValidModel, StepOf, ById, Find, ClaimIdFor, ClaimsOwned, OwnedOnce, BookingsBacked;
    NotStoredYet(t, pre.storage);
    var sagas, id := ById(pre.storage), BaseInstance(t).sagaId;
    assert Shape(sagas[id]) && Holder(sagas[id]);
    assert ClaimRemembered(sagas, pre.contexts, pre.world, id);
  }

  predicate Acceptable(t: Trigger, a: Arrival, pre: Stores<World>) {
    a.Request? ==>
      && !StartRejected(t, pre.storage)
      && a.inventoryId in pre.world.inventories && ClaimIdFor(a.bookingId) !in pre.world.inventories[a.inventoryId]
  }

  lemma CalmUnit(t: Trigger, a: Arrival, pre: Stores<World>, fuel: nat)
    requires ValidTrigger(t, pre.storage) && TriggerOf(t, a) && DistinctIds(pre.storage) && SafeStores(pre) && fuel >= 2
    ensures var r := RunUnit(t, Client(CALM), pre, fuel);
      r.Result? && (r.committed <==> Acceptable(t, a, pre)) && (r.committed ==> Done(a, r.stores))
  {
    hide RunUnit, SafeStores, DistinctIds, Drain, Begun, StartRejected, Done, BaseInstance, EnvOf, ValidTrigger,
         TriggerOf, Recalled, ClaimIdFor, RunStep;
    var r := RunUnit(t, Client(CALM), pre, fuel);
    NotRejectedWhenExisting(t, a, pre);
    if StartRejected(t, pre.storage) {
      RejectedRun(t, pre, fuel);
    } else if a.Request? {
      RequestCommitsIff(t, a, CALM, pre, fuel);
      if r.committed {
        RequestDone(t, a, CALM, pre, fuel);
      }
    } else {
      UnderWay(t, a, pre);
      if a.Pay? {
        PayCommitsIff(t, a, CALM, pre, fuel);
        PayDone(t, a, CALM, pre, fuel);
      } else {
        DeclineCommitsIff(t, a, CALM, pre, fuel);
        DeclineDone(t, a, CALM, pre, fuel);
      }
    }
  }

  lemma NotRejectedWhenExisting(t: Trigger, a: Arrival, pre: Stores<World>)
    requires TriggerOf(t, a)
    ensures !a.Request? ==> !StartRejected(t, pre.storage)
    ensures t.construction.None?
  {
    hide HasDuplicate;
  }

  lemma RejectedRun(t: Trigger, pre: Stores<World>, fuel: nat)
    requires StartRejected(t, pre.storage)
    ensures RunUnit(t, Client(CALM), pre, fuel) == Rejection(pre)
  {
    hide StartRejected, Drain, RollBack;
  }

  // ----- from every reachable state --------------------------------------------------------------------------

  /** The one report says that a unit of work committed. */
  predicate Committed(reply: Reply<World>) {
    reply.Reports? && |reply.reports| == 1 && reply.reports[0].UnitRan? && reply.reports[0].result.Result?
    && reply.reports[0].result.committed
  }

  /** What a unit of work runs for: nothing yet for a request, else an active instance of the booking. */
  predicate Picked(a: Arrival, existing: Option<SagaInstance>, s: HarnessState<World>) {
    && (existing.None? <==> a.Request?)
    && (existing.Some? ==>
          && Active(existing.value) && Find(s.stores.storage, existing.value.sagaId) == existing
          && Associated(existing.value, BOOKING_ID, a.bookingId))
  }

  lemma CalmRun(ids: nat -> SagaId, a: Arrival, now: int, fuel: nat, existing: Option<SagaInstance>,
                s: HarnessState<World>)
    requires ValidConfig(ConfigOf(ids)) && Inv(ConfigOf(ids), s) && SafeStores(s.stores) && fuel >= 2
    requires Picked(a, existing, s)
    ensures EventOf(a).className in SAGA.steps
    ensures var d, cfg := DeliveryOf(a, now, CALM, fuel), ConfigOf(ids);
      var t := TriggerFor(cfg, d, SAGA, existing, a.bookingId, s.nextId);
      var reply := RunUnitFor(cfg, d, SAGA, existing, a.bookingId, s, Again(cfg, d));
      && reply.Reports? && |reply.reports| == 1
      && (Committed(reply) <==> Acceptable(t, a, s.stores))
      && (Committed(reply) ==> Done(a, reply.state.stores))
  {
    hide RunUnit, SafeStores, Find, ValidModel, NoRivals, FreshFrom, Again, Done, Acceptable;
    assert SAGA.steps[EventOf(a).className] == StepFor(a);
    assert ConfigOf(ids).sagas[0] == SAGA;
    var d, cfg := DeliveryOf(a, now, CALM, fuel), ConfigOf(ids);
    var t := TriggerFor(cfg, d, SAGA, existing, a.bookingId, s.nextId);
    TriggerIsValid(cfg, d, SAGA, existing, a.bookingId, s);
    assert TriggerOf(t, a);
    CalmUnit(t, a, s.stores, fuel);
  }

  /** In a safe state, active and RUNNING are one, and every saga is a booking saga. */
  lemma RunningIffActive(s: Stores<World>, x: SagaInstance)
    requires DistinctIds(s.storage) && SafeStores(s) && x in s.storage
    ensures x.status == SagaStatus.Running <==> Active(x)
    ensures x.sagaType == SAGA_TYPE && BOOKING_ID in x.associations && BookingOf(x) == x.associations[BOOKING_ID]
  {
    hide ById, Find, ClaimRemembered, ClaimsOwned, OwnedOnce, BookingsBacked;
    StoredOnce(s.storage, x);
    assert Shape(ById(s.storage)[x.sagaId]);
  }

  lemma CalmRequest(ids: nat -> SagaId, a: Arrival, now: int, fuel: nat, s: HarnessState<World>)
    requires ValidConfig(ConfigOf(ids)) && Inv(ConfigOf(ids), s) && SafeStores(s.stores) && fuel >= 2 && a.Request?
    ensures var reply := DeliverAll(ConfigOf(ids), DeliveryOf(a, now, CALM, fuel), s);
      (Committed(reply) <==> Ready(a, s.stores)) && (Committed(reply) ==> Done(a, reply.state.stores))
  {
    hide RunUnitFor, DeliverAll, SafeStores, Find, ValidConfig, FreshFrom, NoRivals, AllValid, DistinctIds, Again, Done,
         ClaimIdFor, StartRejected, Committed;
    var d, cfg, storage := DeliveryOf(a, now, CALM, fuel), ConfigOf(ids), s.stores.storage;
    ArrivalReaches(ids, a, now, CALM, fuel, s);
    forall x | x in storage
      ensures x.status == SagaStatus.Running <==> Active(x)
      ensures x.sagaType == SAGA_TYPE && BOOKING_ID in x.associations && BookingOf(x) == x.associations[BOOKING_ID]
    {
      RunningIffActive(s.stores, x);
    }
    CalmRun(ids, a, now, fuel, None, s);
    StartRejectedIff(TriggerFor(cfg, d, SAGA, None, a.bookingId, s.nextId), storage);
  }

  /** A confirmation or a refusal reaches the one saga of its booking that is under way, if there is one. */
  lemma CalmAnswer(ids: nat -> SagaId, a: Arrival, now: int, fuel: nat, s: HarnessState<World>)
    requires ValidConfig(ConfigOf(ids)) && Inv(ConfigOf(ids), s) && SafeStores(s.stores) && fuel >= 2 && !a.Request?
    ensures var reply := DeliverAll(ConfigOf(ids), DeliveryOf(a, now, CALM, fuel), s);
      (Committed(reply) <==> Ready(a, s.stores)) && (Committed(reply) ==> Done(a, reply.state.stores))
  {
    hide RunUnitFor, DeliverAll, RunForEach, SafeStores, Find, ValidConfig, FreshFrom, NoRivals, AllValid, Correlated,
         ActiveOnly, DistinctIds, Again, Done, StartRejected;
    var d, cfg, storage := DeliveryOf(a, now, CALM, fuel), ConfigOf(ids), s.stores.storage;
    ArrivalReaches(ids, a, now, CALM, fuel, s);
    forall x | x in storage
      ensures x.status == SagaStatus.Running <==> Active(x)
      ensures x.sagaType == SAGA_TYPE && BOOKING_ID in x.associations && BookingOf(x) == x.associations[BOOKING_ID]
    {
      RunningIffActive(s.stores, x);
    }
    AtMostOneActive(storage, SAGA, StepFor(a), a.bookingId);
    CorrelatedMembers(storage, SAGA, StepFor(a), a.bookingId);
    var active := ActiveOnly(Correlated(storage, SAGA, StepFor(a), a.bookingId));
    if active != [] {
      assert active[0] in active;
      StoredOnce(storage, active[0]);
      OneInstance(cfg, d, SAGA, a.bookingId, active, s, Again(cfg, d));
      CalmRun(ids, a, now, fuel, Some(active[0]), s);
    }
  }

  /**
   * Whatever requests, confirmations and refusals came before, with any failures injected: an arrival without a
   * failure commits iff it finds what it needs, a free claim and no saga of that booking under way, or else such a
   * saga; and then it has done what it is there for.
   */
  lemma CalmArrivalSucceedsIff(ids: nat -> SagaId, cases: seq<Case>, a: Arrival, now: int, fuel: nat,
                               s: HarnessState<World>)
    requires Initial(s) && (forall m: nat, n: nat :: m != n ==> ids(m) != ids(n)) && fuel >= 2
    ensures var run := ActEach(ConfigOf(ids), Arrivals(cases), s);
      run.Run? ==>
        var reply := DeliverAll(ConfigOf(ids), DeliveryOf(a, now, CALM, fuel), run.state);
        (Committed(reply) <==> Ready(a, run.state.stores)) && (Committed(reply) ==> Done(a, reply.state.stores))
  {
    hide ActEach, ValidConfig, FreshFrom, NoRivals, AllValid, DeliverAll, Ready, Done, Committed, SafeStores;
    SagaIsValid(ids);
    InitialIsSafe(ids, s);
    EveryRunIsSafe(ids, cases, s);
    var run := ActEach(ConfigOf(ids), Arrivals(cases), s);
    if run.Run? {
      if a.Request? {
        CalmRequest(ids, a, now, fuel, run.state);
      } else {
        CalmAnswer(ids, a, now, fuel, run.state);
      }
    }
  }
}
