/** What each step of the booking saga, and each of its units of work, does when it does not fail. */
module BookingSteps {
  import opened Spi
  import opened InMemoryStorage
  import opened SagaLifecycle
  import opened UnitOfWork
  import opened ClientCode
  import opened UnitGuarantees
  import opened Booking

  predicate BookingEnv(env: Env, bookingId: string) {
    && env.model == SAGA && env.routes == ROUTES
    && BOOKING_ID in env.associations && env.associations[BOOKING_ID] == bookingId
  }

  function ClaimOf(event: Event): Claim {
    var bookingId := Property(event, BOOKING_ID);
    Claim(ClaimIdFor(bookingId), bookingId, Property(event, "checkIn"), Property(event, "checkOut"))
  }

  // ----- the code of each step -------------------------------------------------------------------------------

  lemma PutRuns(env: Env, name: string, value: string, send: Effect<World>, finish: Finish, u: Unit<World>)
    ensures var v := WithState(env, name, value, u);
      && RunCode(env, Code([PutState(name, value)], finish), u) == Ending(v, finish)
      && var after := RunEffect(env, send, v);
         RunCode(env, Code([PutState(name, value), send], finish), u)
           == Ending(after.unit, if after.thrown.Some? then Throws(after.thrown.value) else finish)
  {
    hide WithState;
    OneEffect(env, PutState(name, value), u);
    TwoEffects(env, PutState(name, value), send, u);
  }

  lemma RequestedRuns(fault: bool, env: Env, u: Unit<World>, event: Event)
    requires env.routes == ROUTES && event.className == REQUESTED.eventClass
    ensures var run := RunCode(env, StepCode(fault, env, u, event), u);
      var inventoryId, claim := Property(event, INVENTORY_ID), ClaimOf(event);
      && run.finish == (if inventoryId !in u.world.inventories then Throws(NOT_FOUND)
                        else if Held(u.world, inventoryId, claim.claimId) then Throws(ILLEGAL_STATE)
                        else Injected(fault))
      && (!run.finish.Throws? ==>
            run.unit == Recorded(env,
              WithState(env, AMOUNT, Property(event, AMOUNT), WithState(env, INVENTORY_ID, inventoryId, u)),
                                 WithClaim(u.world, inventoryId, claim),
                                 AvailabilityClaimed(inventoryId, claim.bookingId, claim.claimId)))
  {
    hide SendCommand, Recorded, ClaimCall;
    var inventoryId, claim := Property(event, INVENTORY_ID), ClaimOf(event);
    var a, b := PutState(INVENTORY_ID, inventoryId), PutState(AMOUNT, Property(event, AMOUNT));
    var c := Send(Some(Command(CLAIM, true, Some(inventoryId))), ClaimCall(u.world, inventoryId, claim, fault), false);
    assert StepCode(fault, env, u, event) == Code([a, b, c], Returns);
    ThreeEffects(env, a, b, c, u);
    var v := WithState(env, INVENTORY_ID, inventoryId, u);
    ClaimSent(env, WithState(env, AMOUNT, Property(event, AMOUNT), v), inventoryId, claim, fault);
  }

  lemma ClaimedRuns(fault: bool, env: Env, u: Unit<World>, event: Event)
    requires env.routes == ROUTES && event.className == CLAIMED.eventClass
    ensures var run := RunCode(env, StepCode(fault, env, u, event), u);
      var bookingId, amount := Property(event, BOOKING_ID), Remembered(env, u, AMOUNT);
      var payment := Payment(PaymentIdFor(bookingId), bookingId, if amount.Some? then amount.value else "");
      && run.finish == (if amount.None? then Throws(ILLEGAL_STATE) else Injected(fault))
      && (!run.finish.Throws? ==>
            run.unit == Recorded(env, WithState(env, CLAIM_ID, Property(event, CLAIM_ID), u),
                                 u.world.(payments := u.world.payments[payment.paymentId := payment]),
                                 PaymentInitiated(payment.paymentId, payment.bookingId, payment.amount)))
  {
    hide SendCommand, Recorded, PayCall, RunCode, WithState;
    var bookingId, amount := Property(event, BOOKING_ID), Remembered(env, u, AMOUNT);
    var payment := Payment(PaymentIdFor(bookingId), bookingId, if amount.Some? then amount.value else "");
    var send := Send(Some(Command(PAY, true, None)), PayCall(u.world, payment, fault), false);
    PutRuns(env, CLAIM_ID, Property(event, CLAIM_ID), send, if amount.Some? then Returns else Throws(ILLEGAL_STATE), u);
    PutKeepsWorld(env, CLAIM_ID, Property(event, CLAIM_ID), u);
    PaySent(env, WithState(env, CLAIM_ID, Property(event, CLAIM_ID), u), payment, fault);
  }

  lemma PutKeepsWorld(env: Env, name: string, value: string, u: Unit<World>)
    ensures WithState(env, name, value, u).world == u.world
    ensures WithState(env, name, value, u).puts == u.puts + [(name, value)]
  {
  }

  lemma PaidRuns(fault: bool, env: Env, u: Unit<World>, event: Event)
    requires env.routes == ROUTES && event.className == PAID.eventClass
    ensures var run := RunCode(env, StepCode(fault, env, u, event), u);
      var bookingId, paymentId, claimId :=
          Property(event, BOOKING_ID), Property(event, PAYMENT_ID), Remembered(env, u, CLAIM_ID);
      && run.unit.puts == u.puts + [(PAYMENT_ID, paymentId)]
      && run.finish == (if claimId.None? then Throws(ILLEGAL_STATE) else Injected(fault))
      && (!run.finish.Throws? ==>
            run.unit == Recorded(env, WithState(env, PAYMENT_ID, paymentId, u), u.world,
                                    BookingConfirmed(bookingId, claimId.value, paymentId))
                             .(world := u.world.(bookings :=
                                 u.world.bookings[bookingId := Confirmed(bookingId, claimId.value, paymentId)])))
  {
    hide SendCommand, Recorded, ConfirmCall, RunCode, WithState;
    var bookingId, paymentId, claimId :=
        Property(event, BOOKING_ID), Property(event, PAYMENT_ID), Remembered(env, u, CLAIM_ID);
    var booking := Confirmed(bookingId, if claimId.Some? then claimId.value else "", paymentId);
    var send := Send(Some(Command(CONFIRM, true, None)), ConfirmCall(u.world, booking, fault), false);
    PutRuns(env, PAYMENT_ID, paymentId, send, if claimId.Some? then Returns else Throws(ILLEGAL_STATE), u);
    PutKeepsWorld(env, PAYMENT_ID, paymentId, u);
    ConfirmSent(env, WithState(env, PAYMENT_ID, paymentId, u), booking, fault);
  }

  lemma ConfirmedRuns(fault: bool, env: Env, u: Unit<World>, event: Event)
    requires event.className == CONFIRMED.eventClass
    ensures RunCode(env, StepCode(fault, env, u, event), u) == Ending(u, Returns)
  {
    NothingRuns(env, u, Returns);
  }

  lemma DeclinedRuns(fault: bool, env: Env, u: Unit<World>, event: Event)
    requires env.routes == ROUTES && event.className == DECLINED.eventClass
    ensures var run := RunCode(env, StepCode(fault, env, u, event), u);
      var bookingId, inventoryId, claimId :=
          Property(event, BOOKING_ID), Remembered(env, u, INVENTORY_ID), Remembered(env, u, CLAIM_ID);
      && run.unit.puts == u.puts
      && run.finish == (if inventoryId.None? || claimId.None? then Throws(ILLEGAL_STATE)
                        else if inventoryId.value !in u.world.inventories then Throws(NOT_FOUND)
                        else if !Held(u.world, inventoryId.value, claimId.value) then Throws(ILLEGAL_STATE)
                        else Injected(fault))
      && (!run.finish.Throws? ==>
            run.unit == Recorded(env, u, WithoutClaim(u.world, inventoryId.value, claimId.value),
                                    AvailabilityReleased(inventoryId.value, bookingId, claimId.value)))
  {
    hide SendCommand, Recorded, ReleaseCall, RunEffects;
    var bookingId, inventoryId, claimId :=
        Property(event, BOOKING_ID), Remembered(env, u, INVENTORY_ID), Remembered(env, u, CLAIM_ID);
    if inventoryId.Some? && claimId.Some? {
      var send := Send(Some(Command(RELEASE, true, inventoryId)),
                       ReleaseCall(u.world, inventoryId.value, bookingId, claimId.value, fault), false);
      OneEffect(env, send, u);
      ReleaseSent(env, u, inventoryId.value, bookingId, claimId.value, fault);
    } else {
      NothingRuns(env, u, Throws(ILLEGAL_STATE));
    }
  }

  // ----- one pass through the work loop ----------------------------------------------------------------------

  function CodeOf(env: Env, faults: Faults, u: Unit<World>): Code<World>
    requires u.queue != []
  {
    StepCode(faults(env, Observed(Poll(u)), u.queue[0].event), env, Poll(u), u.queue[0].event)
  }

  /** The saga's code does not look at the harness' aggregate store. */
  lemma SameCode(fault: bool, env: Env, u: Unit<World>, event: Event)
    ensures StepCode(fault, env, Observed(u), event) == StepCode(fault, env, u, event)
  {
  }

  /** Whatever a pass does beside the lifecycle is what the step's code did. */
  lemma PassRuns(env: Env, faults: Faults, u: Unit<World>)
    requires u.queue != [] && !u.ended
    ensures var run, after := RunCode(env, CodeOf(env, faults, u), Poll(u)), RunStep(env, Client(faults), u);
      && after.unit.puts == run.unit.puts
      && (after.thrown.None? ==>
            && !run.finish.Throws?
            && after.unit.world == run.unit.world && after.unit.queue == run.unit.queue &&
                  after.unit.stepsRun == run.unit.stepsRun
            && after.unit.contexts == run.unit.contexts && after.unit.recorded == run.unit.recorded
            && after.unit.ended == u.queue[0].step.end)
  {
    hide RunCode, StepCode, RecordStepCompleted, Complete;
    SameCode(faults(env, Observed(Poll(u)), u.queue[0].event), env, Poll(u), u.queue[0].event);
    CodeExtends(env, CodeOf(env, faults, u), Poll(u));
    var run := RunCode(env, CodeOf(env, faults, u), Poll(u));
    ExtendsFrame(env, Poll(u), run.unit);
    CompleteStepFrame(env, u.queue[0].step, run.unit);
  }

  /** Recording an event queues its step iff the saga reacts to it for the same booking. */
  lemma RecordedQueue(env: Env, bookingId: string, u: Unit<World>, changed: World, event: Event)
    requires BookingEnv(env, bookingId) && Recordable(event) && Property(event, BOOKING_ID) == bookingId
    requires BOOKING_ID in event.properties && event.properties[BOOKING_ID].ReadsAs?
    ensures var v := Recorded(env, u, changed, event);
      && v.world == changed && v.puts == u.puts && v.contexts == u.contexts && v.stepsRun == u.stepsRun &&
            v.ended == u.ended
      && v.queue == u.queue + (if event.className in SAGA.steps && !SAGA.steps[event.className].start
                               then [Pending(SAGA.steps[event.className], event, Some(|u.recorded|))] else [])
  {
  }

  /** What the start step leaves of the unit of work it was polled in. */
  function Requesting(env: Env, u: Unit<World>, event: Event): Unit<World> {
    WithState(env, AMOUNT, Property(event, AMOUNT), WithState(env, INVENTORY_ID, Property(event, INVENTORY_ID), u))
  }

  lemma RequestedLeaves(env: Env, bookingId: string, u: Unit<World>, event: Event)
    requires BookingEnv(env, bookingId) && u.queue == [] && Property(event, BOOKING_ID) == bookingId
    requires Property(event, INVENTORY_ID) in u.world.inventories
    ensures var inventoryId, claim := Property(event, INVENTORY_ID), ClaimOf(event);
      var claimed := AvailabilityClaimed(inventoryId, bookingId, claim.claimId);
      var v := Recorded(env, Requesting(env, u, event), WithClaim(u.world, inventoryId, claim), claimed);
      && v.world == WithClaim(u.world, inventoryId, claim) && v.stepsRun == u.stepsRun
      && v.puts == u.puts + [(INVENTORY_ID, inventoryId), (AMOUNT, Property(event, AMOUNT))]
      && Remembered(env, v, AMOUNT) == Some(Property(event, AMOUNT))
      && |v.queue| == 1 && v.queue[0].step == CLAIMED && v.queue[0].event == claimed
  {
    hide Recorded, WithClaim, BookingEnv;
    var inventoryId, claim := Property(event, INVENTORY_ID), ClaimOf(event);
    RecordedQueue(env, bookingId, Requesting(env, u, event), WithClaim(u.world, inventoryId, claim),
                  AvailabilityClaimed(inventoryId, bookingId, claim.claimId));
  }

  lemma RequestedPass(env: Env, bookingId: string, faults: Faults, u: Unit<World>)
    requires BookingEnv(env, bookingId) && |u.queue| == 1 && !u.ended && u.queue[0].step == REQUESTED
    requires var event := u.queue[0].event;
      event.className == REQUESTED.eventClass && Property(event, BOOKING_ID) == bookingId
    ensures var event, after := u.queue[0].event, RunStep(env, Client(faults), u);
      var inventoryId := Property(event, INVENTORY_ID);
      after.thrown.None? ==>
        && inventoryId in u.world.inventories && !Held(u.world, inventoryId, ClaimIdFor(bookingId))
        && after.unit.world == WithClaim(u.world, inventoryId, ClaimOf(event))
        && after.unit.puts == u.puts + [(INVENTORY_ID, inventoryId), (AMOUNT, Property(event, AMOUNT))]
        && after.unit.stepsRun == u.stepsRun + [REQUESTED.name] && !after.unit.ended
        && |after.unit.queue| == 1 && after.unit.queue[0].step == CLAIMED
        && after.unit.queue[0].event == AvailabilityClaimed(inventoryId, bookingId, ClaimIdFor(bookingId))
        && Remembered(env, after.unit, AMOUNT) == Some(Property(event, AMOUNT))
  {
    hide RunStep, RunCode, StepCode, Recorded, WithClaim, BookingEnv, WithState, Held, Remembered, Observed;
    PassRuns(env, faults, u);
    var event, p := u.queue[0].event, Poll(u);
    EnvRoutes(env, bookingId);
    RequestedRuns(faults(env, Observed(p), event), env, p, event);
    if Property(event, INVENTORY_ID) in u.world.inventories {
      RequestedLeaves(env, bookingId, p, event);
      RememberedAlike(env, RunCode(env, CodeOf(env, faults, u), p).unit, RunStep(env, Client(faults), u).unit, AMOUNT);
    }
  }

  lemma RememberedAlike(env: Env, u: Unit<World>, v: Unit<World>, name: string)
    ensures u.contexts == v.contexts ==> Remembered(env, u, name) == Remembered(env, v, name)
  {
  }

  lemma EnvRoutes(env: Env, bookingId: string)
    requires BookingEnv(env, bookingId)
    ensures env.routes == ROUTES && env.model == SAGA
  {
  }

  /** What the claimed step leaves of the unit of work it was polled in. */
  lemma ClaimedLeaves(env: Env, bookingId: string, u: Unit<World>, claimId: string, payment: Payment)
    requires BookingEnv(env, bookingId) && u.queue == [] && payment.bookingId == bookingId
    ensures var v := Recorded(env, WithState(env, CLAIM_ID, claimId, u),
                              u.world.(payments := u.world.payments[payment.paymentId := payment]),
                              PaymentInitiated(payment.paymentId, payment.bookingId, payment.amount));
      && v.world == u.world.(payments := v.world.payments) && v.puts == u.puts + [(CLAIM_ID, claimId)]
      && v.stepsRun == u.stepsRun && v.queue == []
  {
    hide Recorded, BookingEnv, ContextWritten;
    RecordedQueue(env, bookingId, WithState(env, CLAIM_ID, claimId, u),
                  u.world.(payments := u.world.payments[payment.paymentId := payment]),
                  PaymentInitiated(payment.paymentId, payment.bookingId, payment.amount));
  }

  lemma ClaimedPass(env: Env, bookingId: string, faults: Faults, u: Unit<World>)
    requires BookingEnv(env, bookingId) && |u.queue| == 1 && !u.ended && u.queue[0].step == CLAIMED
    requires var event := u.queue[0].event;
      event.className == CLAIMED.eventClass && Property(event, BOOKING_ID) == bookingId
    ensures var event, after := u.queue[0].event, RunStep(env, Client(faults), u);
      after.thrown.None? ==>
        && after.unit.world == u.world.(payments := after.unit.world.payments)
        && after.unit.puts == u.puts + [(CLAIM_ID, Property(event, CLAIM_ID))]
        && after.unit.stepsRun == u.stepsRun + [CLAIMED.name] && !after.unit.ended && after.unit.queue == []
  {
    hide RunStep, RunCode, StepCode, Recorded, BookingEnv, Remembered, WithState, PaymentIdFor, Observed;
    PassRuns(env, faults, u);
    var event, p := u.queue[0].event, Poll(u);
    EnvRoutes(env, bookingId);
    ClaimedRuns(faults(env, Observed(p), event), env, p, event);
    var amount := Remembered(env, p, AMOUNT);
    ClaimedLeaves(env, bookingId, p, Property(event, CLAIM_ID),
                  Payment(PaymentIdFor(bookingId), bookingId, if amount.Some? then amount.value else ""));
  }

  /** What the paid step leaves of the unit of work it was polled in. */
  lemma PaidLeaves(env: Env, bookingId: string, u: Unit<World>, claimId: string, paymentId: string)
    requires BookingEnv(env, bookingId) && u.queue == []
    ensures var confirmed := BookingConfirmed(bookingId, claimId, paymentId);
      var v := Recorded(env, WithState(env, PAYMENT_ID, paymentId, u), u.world, confirmed);
      && v.puts == u.puts + [(PAYMENT_ID, paymentId)] && v.stepsRun == u.stepsRun && v.ended == u.ended
      && |v.queue| == 1 && v.queue[0].step == CONFIRMED && v.queue[0].event == confirmed
  {
    hide Recorded, BookingEnv, ContextWritten;
    RecordedQueue(env, bookingId, WithState(env, PAYMENT_ID, paymentId, u), u.world,
                  BookingConfirmed(bookingId, claimId, paymentId));
  }

  lemma PaidPass(env: Env, bookingId: string, faults: Faults, u: Unit<World>)
    requires BookingEnv(env, bookingId) && |u.queue| == 1 && !u.ended && u.queue[0].step == PAID
    requires var event := u.queue[0].event;
      event.className == PAID.eventClass && Property(event, BOOKING_ID) == bookingId
    ensures var event, after, claimId :=
        u.queue[0].event, RunStep(env, Client(faults), u), Remembered(env, u, CLAIM_ID);
      && after.unit.puts == u.puts + [(PAYMENT_ID, Property(event, PAYMENT_ID))]
      && (after.thrown.None? ==>
            && claimId.Some?
            && after.unit.world ==
                  u.world.(bookings := u.world.bookings[bookingId :=
                      Confirmed(bookingId, claimId.value, Property(event, PAYMENT_ID))])
            && after.unit.stepsRun == u.stepsRun + [PAID.name] && !after.unit.ended
            && |after.unit.queue| == 1 && after.unit.queue[0].step == CONFIRMED
            && after.unit.queue[0].event.className == CONFIRMED.eventClass)
  {
    hide RunStep, RunCode, StepCode, Recorded, BookingEnv, Observed;
    PassRuns(env, faults, u);
    var event, p := u.queue[0].event, Poll(u);
    EnvRoutes(env, bookingId);
    PaidRuns(faults(env, Observed(p), event), env, p, event);
    var claimId := Remembered(env, p, CLAIM_ID);
    if claimId.Some? {
      PaidLeaves(env, bookingId, p, claimId.value, Property(event, PAYMENT_ID));
    }
  }

  lemma ConfirmedPass(env: Env, faults: Faults, u: Unit<World>)
    requires |u.queue| == 1 && !u.ended && u.queue[0].step == CONFIRMED
    requires u.queue[0].event.className == CONFIRMED.eventClass
    ensures var after := RunStep(env, Client(faults), u);
      && after.unit.puts == u.puts
      && (after.thrown.None? ==>
            after.unit.world == u.world && after.unit.stepsRun == u.stepsRun + [CONFIRMED.name] && after.unit.ended)
  {
    hide RunStep, RunCode, StepCode;
    PassRuns(env, faults, u);
    ConfirmedRuns(faults(env, Observed(Poll(u)), u.queue[0].event), env, Poll(u), u.queue[0].event);
  }

  lemma DeclinedPass(env: Env, bookingId: string, faults: Faults, u: Unit<World>)
    requires BookingEnv(env, bookingId) && |u.queue| == 1 && !u.ended && u.queue[0].step == DECLINED
    requires var event := u.queue[0].event;
      event.className == DECLINED.eventClass && Property(event, BOOKING_ID) == bookingId
    ensures var after, inventoryId, claimId :=
        RunStep(env, Client(faults), u), Remembered(env, u, INVENTORY_ID), Remembered(env, u, CLAIM_ID);
      && after.unit.puts == u.puts
      && (after.thrown.None? ==>
            && inventoryId.Some? && claimId.Some? && Held(u.world, inventoryId.value, claimId.value)
            && after.unit.world == WithoutClaim(u.world, inventoryId.value, claimId.value)
            && after.unit.stepsRun == u.stepsRun + [DECLINED.name] && after.unit.ended)
  {
    hide RunStep, RunCode, StepCode, Recorded, BookingEnv, WithoutClaim;
    PassRuns(env, faults, u);
    var event, p := u.queue[0].event, Poll(u);
    EnvRoutes(env, bookingId);
    DeclinedRuns(faults(env, Observed(p), event), env, p, event);
    var inventoryId, claimId := Remembered(env, p, INVENTORY_ID), Remembered(env, p, CLAIM_ID);
    if inventoryId.Some? && claimId.Some? && Held(u.world, inventoryId.value, claimId.value) {
      RecordedQueue(env, bookingId, p, WithoutClaim(u.world, inventoryId.value, claimId.value),
                    AvailabilityReleased(inventoryId.value, bookingId, claimId.value));
    }
  }

  // ----- the three units of work -----------------------------------------------------------------------------

  predicate AboutToRun(u: Unit<World>, step: Step, event: Event) {
    u.queue == [Pending(step, event, None)] && !u.ended && u.stepsRun == [] && u.puts == [] &&
        event.className == step.eventClass
  }

  /** Two passes are all there is when the second leaves nothing to do. */
  lemma TwoPasses(env: Env, oracle: Oracle<World>, u: Unit<World>, fuel: nat)
    requires u.queue != [] && !u.ended && RunStep(env, oracle, u).thrown.None?
    requires var first := RunStep(env, oracle, u).unit;
      first.queue != [] && !first.ended &&
      (var second := RunStep(env, oracle, first); second.thrown.Some? || second.unit.queue == [] || second.unit.ended)
    ensures var ran, second := Drain(env, oracle, u, fuel), RunStep(env, oracle, RunStep(env, oracle, u).unit);
      if fuel < 2 then ran.StillRunning? else ran == Ran(second.unit, second.thrown)
  {
    hide RunStep;
    if fuel > 0 {
      var first := RunStep(env, oracle, u).unit;
      assert Drain(env, oracle, u, fuel) == Drain(env, oracle, first, fuel - 1);
      if fuel > 1 {
        var second := RunStep(env, oracle, first);
        assert second.thrown.None? ==> Drain(env, oracle, first, fuel - 1) == Drain(env, oracle, second.unit, fuel - 2);
      }
    }
  }

  /** The first unit of work: the claim and the payment, up to the wait for the payment's outcome. */
  lemma StartDrains(env: Env, bookingId: string, faults: Faults, u: Unit<World>, event: Event, fuel: nat)
    requires BookingEnv(env, bookingId) && AboutToRun(u, REQUESTED, event) && Property(event, BOOKING_ID) == bookingId
    ensures fuel >= 2 ==> Drain(env, Client(faults), u, fuel).Ran?
    ensures var ran, inventoryId := Drain(env, Client(faults), u, fuel), Property(event, INVENTORY_ID);
      ran.Ran? && ran.thrown.None? ==>
        && inventoryId in u.world.inventories && !Held(u.world, inventoryId, ClaimIdFor(bookingId))
        && ran.unit.world == WithClaim(u.world, inventoryId, ClaimOf(event)).(payments := ran.unit.world.payments)
        && ran.unit.stepsRun == [REQUESTED.name, CLAIMED.name]
        && ran.unit.puts == [(INVENTORY_ID, inventoryId), (AMOUNT, Property(event, AMOUNT)),
                             (CLAIM_ID, ClaimIdFor(bookingId))]
  {
    hide RunStep, WithClaim, BookingEnv;
    RequestedPass(env, bookingId, faults, u);
    var first := RunStep(env, Client(faults), u);
    if fuel > 0 && first.thrown.None? {
      ClaimedPass(env, bookingId, faults, first.unit);
      TwoPasses(env, Client(faults), u, fuel);
    }
  }

  /** The second unit of work, paid: the booking is confirmed. */
  lemma PaidDrains(env: Env, bookingId: string, faults: Faults, u: Unit<World>, event: Event, fuel: nat)
    requires BookingEnv(env, bookingId) && AboutToRun(u, PAID, event) && Property(event, BOOKING_ID) == bookingId
    ensures fuel >= 2 ==> Drain(env, Client(faults), u, fuel).Ran?
    ensures var ran, claimId := Drain(env, Client(faults), u, fuel), Remembered(env, u, CLAIM_ID);
      ran.Ran? ==>
        && ran.unit.puts == [(PAYMENT_ID, Property(event, PAYMENT_ID))]
        && (ran.thrown.None? ==>
              && claimId.Some?
              && ran.unit.world == u.world.(bookings :=
                    u.world.bookings[bookingId := Confirmed(bookingId, claimId.value, Property(event, PAYMENT_ID))])
              && ran.unit.stepsRun == [PAID.name, CONFIRMED.name])
  {
    hide RunStep, BookingEnv;
    PaidPass(env, bookingId, faults, u);
    var first := RunStep(env, Client(faults), u);
    if fuel > 0 && first.thrown.None? {
      ConfirmedPass(env, faults, first.unit);
      TwoPasses(env, Client(faults), u, fuel);
    }
  }

  /** The second unit of work, declined: the claim is released. */
  lemma DeclinedDrains(env: Env, bookingId: string, faults: Faults, u: Unit<World>, event: Event, fuel: nat)
    requires BookingEnv(env, bookingId) && AboutToRun(u, DECLINED, event) && Property(event, BOOKING_ID) == bookingId
    ensures fuel >= 2 ==> Drain(env, Client(faults), u, fuel).Ran?
    ensures var ran, inventoryId, claimId :=
        Drain(env, Client(faults), u, fuel), Remembered(env, u, INVENTORY_ID), Remembered(env, u, CLAIM_ID);
      ran.Ran? ==>
        && ran.unit.puts == []
        && (ran.thrown.None? ==>
              && inventoryId.Some? && claimId.Some? && Held(u.world, inventoryId.value, claimId.value)
              && ran.unit.world == WithoutClaim(u.world, inventoryId.value, claimId.value)
              && ran.unit.stepsRun == [DECLINED.name])
  {
    hide RunStep, BookingEnv, WithoutClaim;
    DeclinedPass(env, bookingId, faults, u);
  }
}
