/**
 * The booking saga: its five steps, the inventory, payment and booking code behind their commands, and one
 * injected failure per step, anywhere after the handler's change.
 */
module Booking {
  import opened Spi
  import opened InMemoryStorage
  import opened SagaLifecycle
  import opened UnitOfWork

  datatype Claim = Claim(claimId: string, bookingId: string, checkIn: string, checkOut: string)
  datatype Confirmed = Confirmed(bookingId: string, claimId: string, paymentId: string)
  datatype Payment = Payment(paymentId: string, bookingId: string, amount: string)

  /** The repositories: claims by inventory and claim id, bookings and payments by id. */
  datatype World = World(inventories: map<string, map<string, Claim>>, bookings: map<string, Confirmed>,
                         payments: map<string, Payment>)

  const SAGA_TYPE := "CreateBookingSaga"
  const BOOKING_ID := "bookingId"
  const INVENTORY_ID := "inventoryId"
  const AMOUNT := "amount"
  const CLAIM_ID := "claimId"
  const PAYMENT_ID := "paymentId"

  const REQUESTED := Step("onBookingRequested", "BookingRequestedEvent", BOOKING_ID, true, false)
  const CLAIMED := Step("onAvailabilityClaimed", "AvailabilityClaimedEvent", BOOKING_ID, false, false)
  const PAID := Step("onPaymentConfirmed", "PaymentConfirmedEvent", BOOKING_ID, false, false)
  const CONFIRMED := Step("onBookingConfirmed", "BookingConfirmedEvent", BOOKING_ID, false, true)
  const DECLINED := Step("onPaymentDeclined", "PaymentDeclinedEvent", BOOKING_ID, false, true)

  const SAGA := SagaModel(SAGA_TYPE, map[
    REQUESTED.eventClass := REQUESTED, CLAIMED.eventClass := CLAIMED, PAID.eventClass := PAID,
    CONFIRMED.eventClass := CONFIRMED, DECLINED.eventClass := DECLINED])

  const CLAIM := "ClaimAvailability"
  const RELEASE := "ReleaseAvailability"
  const PAY := "InitiatePayment"
  const CONFIRM := "ConfirmBooking"

  const ROUTES := map[CLAIM := InstanceRoute, RELEASE := InstanceRoute, PAY := ServiceRoute, CONFIRM := CreationRoute]

  // ----- events ----------------------------------------------------------------------------------------------

  function Requested(bookingId: string, inventoryId: string, checkIn: string, checkOut: string, amount: string): Event {
    Event(REQUESTED.eventClass, true, "Booking", Some(bookingId),
          map[BOOKING_ID := ReadsAs(bookingId), INVENTORY_ID := ReadsAs(inventoryId),
              "checkIn" := ReadsAs(checkIn), "checkOut" := ReadsAs(checkOut), AMOUNT := ReadsAs(amount)])
  }

  function AvailabilityClaimed(inventoryId: string, bookingId: string, claimId: string): Event {
    Event(CLAIMED.eventClass, true, "Inventory", Some(inventoryId),
          map[INVENTORY_ID := ReadsAs(inventoryId), BOOKING_ID := ReadsAs(bookingId), CLAIM_ID := ReadsAs(claimId)])
  }

  function AvailabilityReleased(inventoryId: string, bookingId: string, claimId: string): Event {
    Event("AvailabilityReleasedEvent", true, "Inventory", Some(inventoryId),
          map[INVENTORY_ID := ReadsAs(inventoryId), BOOKING_ID := ReadsAs(bookingId), CLAIM_ID := ReadsAs(claimId)])
  }

  function PaymentInitiated(paymentId: string, bookingId: string, amount: string): Event {
    Event("PaymentInitiatedEvent", true, "Payment", Some(paymentId),
          map[PAYMENT_ID := ReadsAs(paymentId), BOOKING_ID := ReadsAs(bookingId), AMOUNT := ReadsAs(amount)])
  }

  function PaymentConfirmed(paymentId: string, bookingId: string): Event {
    Event(PAID.eventClass, true, "Payment", Some(paymentId),
          map[PAYMENT_ID := ReadsAs(paymentId), BOOKING_ID := ReadsAs(bookingId)])
  }

  function PaymentDeclined(paymentId: string, bookingId: string, reason: string): Event {
    Event(DECLINED.eventClass, true, "Payment", Some(paymentId),
          map[PAYMENT_ID := ReadsAs(paymentId), BOOKING_ID := ReadsAs(bookingId), "reason" := ReadsAs(reason)])
  }

  function BookingConfirmed(bookingId: string, claimId: string, paymentId: string): Event {
    Event(CONFIRMED.eventClass, true, "Booking", Some(bookingId),
          map[BOOKING_ID := ReadsAs(bookingId), CLAIM_ID := ReadsAs(claimId), PAYMENT_ID := ReadsAs(paymentId)])
  }

  // ----- the aggregates --------------------------------------------------------------------------------------

  function ClaimIdFor(bookingId: string): string {
    "claim-" + bookingId
  }

  function PaymentIdFor(bookingId: string): string {
    "payment-" + bookingId
  }

  predicate Held(w: World, inventoryId: string, claimId: string) {
    inventoryId in w.inventories && claimId in w.inventories[inventoryId]
  }

  function WithClaim(w: World, inventoryId: string, claim: Claim): World
    requires inventoryId in w.inventories
  {
    w.(inventories := w.inventories[inventoryId := w.inventories[inventoryId][claim.claimId := claim]])
  }

  function WithoutClaim(w: World, inventoryId: string, claimId: string): World
    requires inventoryId in w.inventories
  {
    w.(inventories := w.inventories[inventoryId := w.inventories[inventoryId] - {claimId}])
  }

  const INJECTED: Cause := "injected failure"
  const ILLEGAL_STATE: Cause := "IllegalStateException"

  function Injected(fault: bool): Finish {
    if fault then Throws(INJECTED) else Returns
  }

  /** A handler that changes the world, throws if a failure is armed, and records an event otherwise. */
  function Handler(changed: World, event: Event, fault: bool): Code<World> {
    Code([Change(changed)] + (if fault then [] else [Effect.Record(event, false)]), Injected(fault))
  }

  const NOTHING: Code<World> := Code([], Returns)

  function LoadInventory(w: World, inventoryId: string): Code<World> {
    Code([], if inventoryId in w.inventories then Returns else ReturnsNull)
  }

  /** Inventory.handle(ClaimAvailability). */
  function ClaimCall(w: World, inventoryId: string, claim: Claim, fault: bool): Call<World> {
    Call(LoadInventory(w, inventoryId),
         if inventoryId !in w.inventories || Held(w, inventoryId, claim.claimId) then Code([], Throws(ILLEGAL_STATE))
         else Handler(WithClaim(w, inventoryId, claim),
                      AvailabilityClaimed(inventoryId, claim.bookingId, claim.claimId), fault),
         NOTHING)
  }

  /** Inventory.handle(ReleaseAvailability). */
  function ReleaseCall(w: World, inventoryId: string, bookingId: string, claimId: string, fault: bool): Call<World> {
    Call(LoadInventory(w, inventoryId),
         if !Held(w, inventoryId, claimId) then Code([], Throws(ILLEGAL_STATE))
         else Handler(WithoutClaim(w, inventoryId, claimId), AvailabilityReleased(inventoryId, bookingId, claimId),
                      fault),
         NOTHING)
  }

  /** PaymentService.handle. */
  function PayCall(w: World, payment: Payment, fault: bool): Call<World> {
    Call(NOTHING,
         Handler(w.(payments := w.payments[payment.paymentId := payment]),
                 PaymentInitiated(payment.paymentId, payment.bookingId, payment.amount), fault),
         NOTHING)
  }

  /** The creation handler of Booking, then the repository's save. */
  function ConfirmCall(w: World, booking: Confirmed, fault: bool): Call<World> {
    Call(NOTHING,
         Code(if fault then []
             else [Effect.Record(BookingConfirmed(booking.bookingId, booking.claimId, booking.paymentId), false)],
                 Injected(fault)),
         Code([Change(w.(bookings := w.bookings[booking.bookingId := booking]))], Returns))
  }

  // ----- the saga --------------------------------------------------------------------------------------------

  function Recalled(contexts: Contexts, id: SagaId, name: string): Option<string> {
    if id in contexts && name in contexts[id] then Some(contexts[id][name]) else None
  }

  function Remembered(env: Env, u: Unit<World>, name: string): Option<string> {
    Recalled(u.contexts, env.sagaId, name)
  }

  function Property(event: Event, name: string): string {
    if name in event.properties && event.properties[name].ReadsAs? then event.properties[name].value else ""
  }

  /** One step: the context values it writes, then, if it has what it needs, the command it sends. */
  function StepCode(fault: bool, env: Env, u: Unit<World>, event: Event): Code<World> {
    var bookingId := Property(event, BOOKING_ID);
    if event.className == REQUESTED.eventClass then
      var inventoryId := Property(event, INVENTORY_ID);
      var claim := Claim(ClaimIdFor(bookingId), bookingId, Property(event, "checkIn"), Property(event, "checkOut"));
      Code([PutState(INVENTORY_ID, inventoryId), PutState(AMOUNT, Property(event, AMOUNT)),
            Send(Some(Command(CLAIM, true, Some(inventoryId))), ClaimCall(u.world, inventoryId, claim, fault), false)],
                Returns)
    else if event.className == CLAIMED.eventClass then
      var amount := Remembered(env, u, AMOUNT);
      var remember := PutState(CLAIM_ID, Property(event, CLAIM_ID));
      if amount.None? then Code([remember], Throws(ILLEGAL_STATE))
      else
        Code([remember, Send(Some(Command(PAY, true, None)),
                             PayCall(u.world, Payment(PaymentIdFor(bookingId), bookingId, amount.value), fault),
                                 false)], Returns)
    else if event.className == PAID.eventClass then
      var claimId := Remembered(env, u, CLAIM_ID);
      var paymentId := Property(event, PAYMENT_ID);
      var remember := PutState(PAYMENT_ID, paymentId);
      if claimId.None? then Code([remember], Throws(ILLEGAL_STATE))
      else
        Code([remember, Send(Some(Command(CONFIRM, true, None)),
                             ConfirmCall(u.world, Confirmed(bookingId, claimId.value, paymentId), fault), false)],
                                 Returns)
    else if event.className == DECLINED.eventClass then
      var inventoryId, claimId := Remembered(env, u, INVENTORY_ID), Remembered(env, u, CLAIM_ID);
      if inventoryId.None? || claimId.None? then Code([], Throws(ILLEGAL_STATE))
      else
        Code([Send(Some(Command(RELEASE, true, inventoryId)),
                   ReleaseCall(u.world, inventoryId.value, bookingId, claimId.value, fault), false)], Returns)
    else NOTHING
  }

  /** The failures that are injected, step by step. */
  type Faults = (Env, Unit<World>, Event) -> bool

  function Client(faults: Faults): Oracle<World> {
    (env: Env, u: Unit<World>, event: Event) => StepCode(faults(env, u, event), env, u, event)
  }

  // ----- what each command does ------------------------------------------------------------------------------

  /** Client code that throws wrote no context on the way. */
  predicate NoPuts(u: Unit<World>, after: After<World>) {
    after.unit.puts == u.puts && after.unit.contexts == u.contexts
  }

  function Recorded(env: Env, u: Unit<World>, changed: World, event: Event): Unit<World> {
    RecordEvent(env, event, u.(world := changed)).unit
  }

  lemma OneEffect(env: Env, a: Effect<World>, u: Unit<World>)
    ensures RunEffects(env, [a], u) == RunEffect(env, a, u)
  {
    var first := RunEffect(env, a, u);
    assert [a][1..] == [];
    assert RunEffects(env, [], first.unit) == After(first.unit, None);
  }

  lemma TwoEffects(env: Env, a: Effect<World>, b: Effect<World>, u: Unit<World>)
    ensures var first := RunEffect(env, a, u);
      RunEffects(env, [a, b], u) == if first.thrown.Some? then first else RunEffect(env, b, first.unit)
  {
    assert [a, b][1..] == [b];
    OneEffect(env, b, RunEffect(env, a, u).unit);
  }

  lemma ThreeEffects(env: Env, a: Effect<World>, b: Effect<World>, c: Effect<World>, u: Unit<World>)
    ensures var first := RunEffect(env, a, u);
      var second := RunEffect(env, b, first.unit);
      RunEffects(env, [a, b, c], u)
        == if first.thrown.Some? then first else if second.thrown.Some? then second else RunEffect(env, c, second.unit)
  {
    assert [a, b, c][1..] == [b, c];
    TwoEffects(env, b, c, RunEffect(env, a, u).unit);
  }

  /** No accessor of the event throws. */
  predicate Readable(event: Event) {
    forall p <- event.properties :: event.properties[p].ReadsAs?
  }

  lemma HandlerRuns(env: Env, changed: World, event: Event, fault: bool, u: Unit<World>)
    requires Recordable(event) && Readable(event)
    ensures var run := RunCode(env, Handler(changed, event, fault), u);
      && run.unit.puts == u.puts && run.unit.contexts == u.contexts
      && (if fault then run.finish == Throws(INJECTED)
          else run.finish == Returns && run.unit == Recorded(env, u, changed, event))
  {
    var mutate, record := Change(changed), Effect<World>.Record(event, false);
    if fault {
      assert Handler(changed, event, fault).effects == [mutate];
      OneEffect(env, mutate, u);
    } else {
      assert Handler(changed, event, fault).effects == [mutate, record];
      TwoEffects(env, mutate, record, u);
    }
  }

  lemma NothingRuns(env: Env, u: Unit<World>, finish: Finish)
    ensures RunCode(env, Code([], finish), u) == Ending(u, finish)
  {
  }

  lemma ClaimSent(env: Env, u: Unit<World>, inventoryId: string, claim: Claim, fault: bool)
    requires env.routes == ROUTES
    ensures var after := SendCommand(env, Some(Command(CLAIM, true, Some(inventoryId))),
                                     ClaimCall(u.world, inventoryId, claim, fault), u);
      && NoPuts(u, after)
      && after.thrown == (if inventoryId !in u.world.inventories then Some(NOT_FOUND)
                          else if Held(u.world, inventoryId, claim.claimId) then Some(ILLEGAL_STATE)
                          else if fault then Some(INJECTED) else None)
      && (after.thrown.None? ==>
            && inventoryId in u.world.inventories && !Held(u.world, inventoryId, claim.claimId)
            && after.unit == Recorded(env, u, WithClaim(u.world, inventoryId, claim),
                                      AvailabilityClaimed(inventoryId, claim.bookingId, claim.claimId)))
  {
    hide RunCode, Handler, Recorded;
    var call := ClaimCall(u.world, inventoryId, claim, fault);
    NothingRuns(env, u, call.load.finish);
    if inventoryId in u.world.inventories && !Held(u.world, inventoryId, claim.claimId) {
      HandlerRuns(env, WithClaim(u.world, inventoryId, claim),
                  AvailabilityClaimed(inventoryId, claim.bookingId, claim.claimId), fault, u);
    } else {
      NothingRuns(env, u, Throws(ILLEGAL_STATE));
    }
    NothingRuns(env, RunCode(env, call.handler, u).unit, Returns);
  }

  lemma ReleaseSent(env: Env, u: Unit<World>, inventoryId: string, bookingId: string, claimId: string, fault: bool)
    requires env.routes == ROUTES
    ensures var after := SendCommand(env, Some(Command(RELEASE, true, Some(inventoryId))),
                                     ReleaseCall(u.world, inventoryId, bookingId, claimId, fault), u);
      && NoPuts(u, after)
      && after.thrown == (if inventoryId !in u.world.inventories then Some(NOT_FOUND)
                          else if !Held(u.world, inventoryId, claimId) then Some(ILLEGAL_STATE)
                          else if fault then Some(INJECTED) else None)
      && (after.thrown.None? ==>
            && Held(u.world, inventoryId, claimId)
            && after.unit == Recorded(env, u, WithoutClaim(u.world, inventoryId, claimId),
                                      AvailabilityReleased(inventoryId, bookingId, claimId)))
  {
    hide RunCode, Handler, Recorded;
    var call := ReleaseCall(u.world, inventoryId, bookingId, claimId, fault);
    NothingRuns(env, u, call.load.finish);
    if Held(u.world, inventoryId, claimId) {
      HandlerRuns(env, WithoutClaim(u.world, inventoryId, claimId),
                  AvailabilityReleased(inventoryId, bookingId, claimId), fault, u);
    } else {
      NothingRuns(env, u, Throws(ILLEGAL_STATE));
    }
    NothingRuns(env, RunCode(env, call.handler, u).unit, Returns);
  }

  lemma PaySent(env: Env, u: Unit<World>, payment: Payment, fault: bool)
    requires env.routes == ROUTES
    ensures var after := SendCommand(env, Some(Command(PAY, true, None)), PayCall(u.world, payment, fault), u);
      && NoPuts(u, after) && after.thrown == (if fault then Some(INJECTED) else None)
      && (after.thrown.None? ==>
            after.unit == Recorded(env, u, u.world.(payments := u.world.payments[payment.paymentId := payment]),
                                   PaymentInitiated(payment.paymentId, payment.bookingId, payment.amount)))
  {
    hide RunCode, Handler, Recorded;
    HandlerRuns(env, u.world.(payments := u.world.payments[payment.paymentId := payment]),
                PaymentInitiated(payment.paymentId, payment.bookingId, payment.amount), fault, u);
  }

  lemma ConfirmSent(env: Env, u: Unit<World>, booking: Confirmed, fault: bool)
    requires env.routes == ROUTES
    ensures var after := SendCommand(env, Some(Command(CONFIRM, true, None)), ConfirmCall(u.world, booking, fault), u);
      && NoPuts(u, after) && after.thrown == (if fault then Some(INJECTED) else None)
      && (after.thrown.None? ==>
            after.unit == Recorded(env, u, u.world,
                                   BookingConfirmed(booking.bookingId, booking.claimId, booking.paymentId))
                            .(world := u.world.(bookings := u.world.bookings[booking.bookingId := booking])))
  {
    hide RunCode, Recorded;
    var call := ConfirmCall(u.world, booking, fault);
    ConfirmHandled(env, u, booking, fault);
    BookingSaved(env, u.world, booking, fault, RunCode(env, call.handler, u).unit);
  }

  lemma BookingSaved(env: Env, w: World, booking: Confirmed, fault: bool, v: Unit<World>)
    ensures RunCode(env, ConfirmCall(w, booking, fault).save, v)
            == Ending(v.(world := w.(bookings := w.bookings[booking.bookingId := booking])), Returns)
  {
    var save := Change(w.(bookings := w.bookings[booking.bookingId := booking]));
    assert ConfirmCall(w, booking, fault).save.effects == [save];
    OneEffect(env, save, v);
  }

  lemma ConfirmHandled(env: Env, u: Unit<World>, booking: Confirmed, fault: bool)
    ensures var run := RunCode(env, ConfirmCall(u.world, booking, fault).handler, u);
      && run.unit.puts == u.puts && run.unit.contexts == u.contexts
      && run.finish == Injected(fault)
      && (!fault ==>
            run.unit ==
              Recorded(env, u, u.world, BookingConfirmed(booking.bookingId, booking.claimId, booking.paymentId)))
  {
    var event := BookingConfirmed(booking.bookingId, booking.claimId, booking.paymentId);
    var effects := ConfirmCall(u.world, booking, fault).handler.effects;
    if fault {
      assert effects == [];
    } else {
      assert effects == [Effect<World>.Record(event, false)];
      OneEffect(env, Effect<World>.Record(event, false), u);
    }
  }

  /** Bookings share neither claims nor payments. */
  lemma IdsDistinct(a: string, b: string)
    ensures ClaimIdFor(a) == ClaimIdFor(b) <==> a == b
    ensures PaymentIdFor(a) == PaymentIdFor(b) <==> a == b
  {
    assert ClaimIdFor(a)[|"claim-"|..] == a && ClaimIdFor(b)[|"claim-"|..] == b;
    assert PaymentIdFor(a)[|"payment-"|..] == a && PaymentIdFor(b)[|"payment-"|..] == b;
  }

  // ----- what the events carry -------------------------------------------------------------------------------

  /** Each event carries what it was made from, under the property its readers ask for. */
  lemma EventsCarry(a: string, b: string, c: string, d: string, e: string)
    ensures var event := Requested(a, b, c, d, e);
      && Property(event, "bookingId") == a && Property(event, "inventoryId") == b && Property(event, "checkIn") == c
      && Property(event, "checkOut") == d && Property(event, "amount") == e && Reference(event).aggregateId == a
    ensures var event := AvailabilityClaimed(a, b, c);
      && Property(event, "inventoryId") == a && Property(event, "bookingId") == b && Property(event, "claimId") == c
      && Reference(event).aggregateId == a
    ensures var event := AvailabilityReleased(a, b, c);
      && Property(event, "inventoryId") == a && Property(event, "bookingId") == b && Property(event, "claimId") == c
      && Reference(event).aggregateId == a
    ensures var event := PaymentInitiated(a, b, c);
      && Property(event, "paymentId") == a && Property(event, "bookingId") == b && Property(event, "amount") == c
      && Reference(event).aggregateId == a
    ensures var event := PaymentConfirmed(a, b);
      && Property(event, "paymentId") == a && Property(event, "bookingId") == b && Reference(event).aggregateId == a
    ensures var event := PaymentDeclined(a, b, c);
      && Property(event, "paymentId") == a && Property(event, "bookingId") == b && Property(event, "reason") == c
      && Reference(event).aggregateId == a
    ensures var event := BookingConfirmed(a, b, c);
      && Property(event, "bookingId") == a && Property(event, "claimId") == b && Property(event, "paymentId") == c
      && Reference(event).aggregateId == a
  {
  }
}
