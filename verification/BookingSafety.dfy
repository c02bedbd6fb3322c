/**
 * Safety of the booking protocol: every claim an inventory holds belongs to exactly one saga instance that may
 * still need it, and every stored booking is backed by the claim its saga recorded, whatever fails.
 */
module BookingSafety {
  import opened Spi
  import opened InMemoryStorage
  import opened SagaLifecycle
  import opened UnitOfWork
  import opened Booking

  type Sagas = map<SagaId, SagaInstance>

  predicate FirstUnitDone(x: SagaInstance) {
    x.HasCompleted(REQUESTED.name) && x.HasCompleted(CLAIMED.name)
  }

  predicate EndedAt(x: SagaInstance, step: Step) {
    x.status == SagaStatus.Completed && x.outcome == Some(step.name)
  }

  /** The instances that answer for a claim: RUNNING, confirmed, or FAILED after the first unit of work. */
  predicate Holder(x: SagaInstance) {
    FirstUnitDone(x) && !EndedAt(x, DECLINED)
  }

  function BookingOf(x: SagaInstance): string {
    if BOOKING_ID in x.associations then x.associations[BOOKING_ID] else ""
  }

  predicate Shape(x: SagaInstance) {
    && x.sagaType == SAGA_TYPE && BOOKING_ID in x.associations && SAGA.StepNames() <= x.steps.Keys
    && (x.HasCompleted(REQUESTED.name) <==> x.HasCompleted(CLAIMED.name))
    && (Active(x) ==> x.status == SagaStatus.Running && FirstUnitDone(x))
    && (x.status == SagaStatus.Completed ==> FirstUnitDone(x) && (EndedAt(x, CONFIRMED) || EndedAt(x, DECLINED)))
  }

  /** The saga instance id answers for the claim. */
  predicate Owns(sagas: Sagas, contexts: Contexts, id: SagaId, inventoryId: string, claimId: string) {
    && id in sagas && Holder(sagas[id])
    && Recalled(contexts, id, INVENTORY_ID) == Some(inventoryId) && Recalled(contexts, id, CLAIM_ID) == Some(claimId)
  }

  predicate ConfirmedBy(sagas: Sagas, contexts: Contexts, id: SagaId, booking: Confirmed) {
    && id in sagas && EndedAt(sagas[id], CONFIRMED) && BookingOf(sagas[id]) == booking.bookingId
    && Recalled(contexts, id, CLAIM_ID) == Some(booking.claimId)
  }

  predicate ClaimRemembered(sagas: Sagas, contexts: Contexts, w: World, id: SagaId)
    requires id in sagas
  {
    && Recalled(contexts, id, INVENTORY_ID).Some?
    && Recalled(contexts, id, CLAIM_ID) == Some(ClaimIdFor(BookingOf(sagas[id])))
    && Held(w, Recalled(contexts, id, INVENTORY_ID).value, ClaimIdFor(BookingOf(sagas[id])))
  }

  ghost predicate HoldersHold(sagas: Sagas, contexts: Contexts, w: World) {
    forall id <- sagas :: Shape(sagas[id]) && (Holder(sagas[id]) ==> ClaimRemembered(sagas, contexts, w, id))
  }

  ghost predicate ClaimsOwned(sagas: Sagas, contexts: Contexts, w: World) {
    forall inventoryId, claimId :: Held(w, inventoryId, claimId) ==>
        exists id :: Owns(sagas, contexts, id, inventoryId, claimId)
  }

  ghost predicate OwnedOnce(sagas: Sagas, contexts: Contexts) {
    forall a, b, inventoryId, claimId ::
      Owns(sagas, contexts, a, inventoryId, claimId) && Owns(sagas, contexts, b, inventoryId, claimId) ==> a == b
  }

  ghost predicate BookingsBacked(sagas: Sagas, contexts: Contexts, w: World) {
    forall b <- w.bookings :: w.bookings[b].bookingId == b && exists id ::
        ConfirmedBy(sagas, contexts, id, w.bookings[b])
  }

  ghost predicate Safe(sagas: Sagas, contexts: Contexts, w: World) {
    HoldersHold(sagas, contexts, w) && ClaimsOwned(sagas, contexts, w) && OwnedOnce(sagas, contexts) &&
        BookingsBacked(sagas, contexts, w)
  }

  // ----- what Safe means to a reader -------------------------------------------------------------------------

  /** The one instance that answers for a claim: RUNNING, confirmed, or FAILED after the first unit of work. */
  ghost predicate SoleOwner(sagas: Sagas, contexts: Contexts, id: SagaId, inventoryId: string, claimId: string) {
    && Owns(sagas, contexts, id, inventoryId, claimId)
    && claimId == ClaimIdFor(BookingOf(sagas[id]))
    && (sagas[id].status == SagaStatus.Running || EndedAt(sagas[id], CONFIRMED)
        || (sagas[id].status == SagaStatus.Failed && FirstUnitDone(sagas[id])))
    && (forall other :: Owns(sagas, contexts, other, inventoryId, claimId) ==> other == id)
  }

  lemma EachClaimHasOneOwner(sagas: Sagas, contexts: Contexts, w: World, inventoryId: string, claimId: string)
    requires Safe(sagas, contexts, w) && Held(w, inventoryId, claimId)
    ensures exists id :: SoleOwner(sagas, contexts, id, inventoryId, claimId)
  {
    var id :| Owns(sagas, contexts, id, inventoryId, claimId);
    assert ClaimRemembered(sagas, contexts, w, id) && Shape(sagas[id]);
    assert SoleOwner(sagas, contexts, id, inventoryId, claimId);
  }

  /** A stored booking was confirmed by a saga, and its claim is held in the inventory that saga recorded. */
  predicate BackedBy(sagas: Sagas, contexts: Contexts, w: World, id: SagaId, booking: Confirmed) {
    && ConfirmedBy(sagas, contexts, id, booking)
    && Recalled(contexts, id, INVENTORY_ID).Some?
    && Held(w, Recalled(contexts, id, INVENTORY_ID).value, booking.claimId)
  }

  lemma EachBookingIsBacked(sagas: Sagas, contexts: Contexts, w: World, b: string)
    requires Safe(sagas, contexts, w) && b in w.bookings
    ensures exists id :: BackedBy(sagas, contexts, w, id, w.bookings[b])
  {
    var id :| ConfirmedBy(sagas, contexts, id, w.bookings[b]);
    assert Shape(sagas[id]) && ClaimRemembered(sagas, contexts, w, id);
    assert BackedBy(sagas, contexts, w, id, w.bookings[b]);
  }

  // ----- the transitions -------------------------------------------------------------------------------------

  /** Everything the protocol reads from the contexts of the other sagas, or of all, is as before. */
  predicate SameRecall(contexts: Contexts, contexts': Contexts, id: SagaId) {
    && Recalled(contexts', id, INVENTORY_ID) == Recalled(contexts, id, INVENTORY_ID)
    && Recalled(contexts', id, CLAIM_ID) == Recalled(contexts, id, CLAIM_ID)
  }

  ghost predicate OthersRecall(contexts: Contexts, contexts': Contexts, id: SagaId) {
    forall other | other != id :: SameRecall(contexts, contexts', other)
  }

  lemma OwnersKept(sagas: Sagas, contexts: Contexts, id: SagaId, x: SagaInstance, contexts': Contexts,
                   other: SagaId, inventoryId: string, claimId: string)
    requires OthersRecall(contexts, contexts', id)
    ensures other != id ==>
              (Owns(sagas[id := x], contexts', other, inventoryId, claimId) <==>
                  Owns(sagas, contexts, other, inventoryId, claimId))
  {
    if other != id {
      assert SameRecall(contexts, contexts', other);
    }
  }

  /** The instance goes on answering for its claim: a wait, a confirmation, or a failure of the second unit of work. */
  lemma HolderGoesOn(sagas: Sagas, contexts: Contexts, w: World, id: SagaId, x: SagaInstance, contexts': Contexts,
                     w': World)
    requires Safe(sagas, contexts, w) && id in sagas && Active(sagas[id])
    requires Holder(x) && Shape(x) && BookingOf(x) == BookingOf(sagas[id])
    requires OthersRecall(contexts, contexts', id) && SameRecall(contexts, contexts', id)
    requires w'.inventories == w.inventories
    requires w'.bookings == w.bookings
             || (EndedAt(x, CONFIRMED) && exists claimId, paymentId ::
                   && w'.bookings == w.bookings[BookingOf(x) := Confirmed(BookingOf(x), claimId, paymentId)]
                   && Recalled(contexts, id, CLAIM_ID) == Some(claimId))
    ensures Safe(sagas[id := x], contexts', w')
  {
    hide Safe, Shape, EndedAt;
    SafeParts(sagas, contexts, w);
    ActiveIsHolder(sagas, contexts, w, id);
    HoldersGoOn(sagas, contexts, w, id, x, contexts', w');
    forall other, inventoryId, claimId
      ensures Owns(sagas[id := x], contexts', other, inventoryId, claimId) <==>
          Owns(sagas, contexts, other, inventoryId, claimId)
    {
      OwnersKept(sagas, contexts, id, x, contexts', other, inventoryId, claimId);
    }
    SameOwners(sagas, contexts, w, sagas[id := x], contexts', w');
    BookingsGoOn(sagas, contexts, w, id, x, contexts', w');
    PartsSafe(sagas[id := x], contexts', w');
  }

  lemma SafeParts(sagas: Sagas, contexts: Contexts, w: World)
    requires Safe(sagas, contexts, w)
    ensures HoldersHold(sagas, contexts, w) && ClaimsOwned(sagas, contexts, w) && OwnedOnce(sagas, contexts)
    ensures BookingsBacked(sagas, contexts, w)
  {
  }

  lemma PartsSafe(sagas: Sagas, contexts: Contexts, w: World)
    requires HoldersHold(sagas, contexts, w) && ClaimsOwned(sagas, contexts, w) && OwnedOnce(sagas, contexts)
    requires BookingsBacked(sagas, contexts, w)
    ensures Safe(sagas, contexts, w)
  {
  }

  lemma ActiveIsHolder(sagas: Sagas, contexts: Contexts, w: World, id: SagaId)
    requires HoldersHold(sagas, contexts, w) && id in sagas && Active(sagas[id])
    ensures Holder(sagas[id]) && ClaimRemembered(sagas, contexts, w, id)
  {
  }

  lemma HoldersGoOn(sagas: Sagas, contexts: Contexts, w: World, id: SagaId, x: SagaInstance, contexts': Contexts,
                    w': World)
    requires HoldersHold(sagas, contexts, w) && id in sagas && Holder(sagas[id])
    requires Holder(x) && Shape(x) && BookingOf(x) == BookingOf(sagas[id])
    requires OthersRecall(contexts, contexts', id) && SameRecall(contexts, contexts', id)
    requires w'.inventories == w.inventories
    ensures HoldersHold(sagas[id := x], contexts', w')
  {
    hide Shape, Holder, Recalled;
    var sagas' := sagas[id := x];
    forall other | other in sagas'
      ensures Shape(sagas'[other]) && (Holder(sagas'[other]) ==> ClaimRemembered(sagas', contexts', w', other))
    {
      assert SameRecall(contexts, contexts', other);
      assert other in sagas && Shape(sagas[other]);
      if Holder(sagas[other]) {
        assert ClaimRemembered(sagas, contexts, w, other);
      }
    }
  }

  lemma SameOwners(sagas: Sagas, contexts: Contexts, w: World, sagas': Sagas, contexts': Contexts, w': World)
    requires ClaimsOwned(sagas, contexts, w) && OwnedOnce(sagas, contexts) && w'.inventories == w.inventories
    requires forall other, inventoryId, claimId ::
               Owns(sagas', contexts', other, inventoryId, claimId) <==>
                   Owns(sagas, contexts, other, inventoryId, claimId)
    ensures ClaimsOwned(sagas', contexts', w') && OwnedOnce(sagas', contexts')
  {
    hide Owns;
    forall inventoryId, claimId | Held(w', inventoryId, claimId)
      ensures exists id :: Owns(sagas', contexts', id, inventoryId, claimId)
    {
      assert Held(w, inventoryId, claimId);
      var id :| Owns(sagas, contexts, id, inventoryId, claimId);
      assert Owns(sagas', contexts', id, inventoryId, claimId);
    }
  }

  lemma BookingsGoOn(sagas: Sagas, contexts: Contexts, w: World, id: SagaId, x: SagaInstance, contexts': Contexts,
                     w': World)
    requires BookingsBacked(sagas, contexts, w) && id in sagas && Active(sagas[id])
    requires OthersRecall(contexts, contexts', id) && SameRecall(contexts, contexts', id)
    requires w'.bookings == w.bookings
             || (EndedAt(x, CONFIRMED) && exists claimId, paymentId ::
                   && w'.bookings == w.bookings[BookingOf(x) := Confirmed(BookingOf(x), claimId, paymentId)]
                   && Recalled(contexts, id, CLAIM_ID) == Some(claimId))
    ensures BookingsBacked(sagas[id := x], contexts', w')
  {
    hide Recalled;
    var sagas' := sagas[id := x];
    forall b | b in w'.bookings
      ensures w'.bookings[b].bookingId == b && exists confirmer ::
          ConfirmedBy(sagas', contexts', confirmer, w'.bookings[b])
    {
      if b in w.bookings && w'.bookings[b] == w.bookings[b] {
        BackedStill(sagas, contexts, id, sagas', contexts', w.bookings[b]);
      } else {
        assert ConfirmedBy(sagas', contexts', id, w'.bookings[b]);
      }
    }
  }

  lemma BackedStill(sagas: Sagas, contexts: Contexts, id: SagaId, sagas': Sagas, contexts': Contexts,
                    booking: Confirmed)
    requires sagas'.Keys == sagas.Keys + {id} && forall other <- sagas :: other != id ==> sagas'[other] == sagas[other]
    requires (exists confirmer :: ConfirmedBy(sagas, contexts, confirmer, booking))
    requires (id in sagas ==> Active(sagas[id]))
    requires OthersRecall(contexts, contexts', id)
    ensures exists confirmer :: ConfirmedBy(sagas', contexts', confirmer, booking)
  {
    var confirmer :| ConfirmedBy(sagas, contexts, confirmer, booking);
    assert confirmer != id && SameRecall(contexts, contexts', confirmer);
    assert ConfirmedBy(sagas', contexts', confirmer, booking);
  }

  lemma BookingsStay(sagas: Sagas, contexts: Contexts, w: World, id: SagaId, x: SagaInstance, contexts': Contexts,
                     w': World)
    requires BookingsBacked(sagas, contexts, w) && (id in sagas ==> Active(sagas[id]))
    requires OthersRecall(contexts, contexts', id) && w'.bookings == w.bookings
    ensures BookingsBacked(sagas[id := x], contexts', w')
  {
    var sagas' := sagas[id := x];
    forall b | b in w'.bookings
      ensures w'.bookings[b].bookingId == b && exists confirmer ::
          ConfirmedBy(sagas', contexts', confirmer, w'.bookings[b])
    {
      BackedStill(sagas, contexts, id, sagas', contexts', w.bookings[b]);
    }
  }

  /** A declined payment: the instance stops answering for its claim, and the claim is gone. */
  lemma HolderReleases(sagas: Sagas, contexts: Contexts, w: World, id: SagaId, x: SagaInstance, contexts': Contexts,
                       inventoryId: string, claimId: string)
    requires Safe(sagas, contexts, w) && id in sagas && Active(sagas[id])
    requires Shape(x) && EndedAt(x, DECLINED)
    requires OthersRecall(contexts, contexts', id)
    requires Recalled(contexts, id, INVENTORY_ID) == Some(inventoryId)
    requires Recalled(contexts, id, CLAIM_ID) == Some(claimId)
    requires inventoryId in w.inventories
    ensures Safe(sagas[id := x], contexts', WithoutClaim(w, inventoryId, claimId))
  {
    hide Shape, Recalled, FirstUnitDone;
    var sagas', w' := sagas[id := x], WithoutClaim(w, inventoryId, claimId);
    ActiveIsHolder(sagas, contexts, w, id);
    forall inv, c ensures Held(w', inv, c) <==> Held(w, inv, c) && (inv, c) != (inventoryId, claimId) {
    }
    BookingsStay(sagas, contexts, w, id, x, contexts', w');
    forall other, inv, c
      ensures Owns(sagas', contexts', other, inv, c) <==> Owns(sagas, contexts, other, inv, c) && other != id
    {
      OwnersKept(sagas, contexts, id, x, contexts', other, inv, c);
    }
    assert Owns(sagas, contexts, id, inventoryId, claimId);
    OtherHolders(sagas, contexts, w, id, x, contexts', w', inventoryId, claimId);
    OtherClaims(sagas, contexts, w, id, sagas', contexts', w', inventoryId, claimId);
  }

  lemma OtherHolders(sagas: Sagas, contexts: Contexts, w: World, id: SagaId, x: SagaInstance, contexts': Contexts,
                     w': World,
                     inventoryId: string, claimId: string)
    requires HoldersHold(sagas, contexts, w) && OwnedOnce(sagas, contexts) && Shape(x) && !Holder(x)
    requires OthersRecall(contexts, contexts', id) && Owns(sagas, contexts, id, inventoryId, claimId)
    requires forall inv, c :: Held(w', inv, c) <==> Held(w, inv, c) && (inv, c) != (inventoryId, claimId)
    ensures HoldersHold(sagas[id := x], contexts', w')
  {
    hide Shape, Holder, Recalled, Held;
    var sagas' := sagas[id := x];
    forall other | other in sagas'
      ensures Shape(sagas'[other]) && (Holder(sagas'[other]) ==> ClaimRemembered(sagas', contexts', w', other))
    {
      if other != id {
        assert SameRecall(contexts, contexts', other);
        assert other in sagas && Shape(sagas[other]);
        if Holder(sagas[other]) {
          assert ClaimRemembered(sagas, contexts, w, other);
          var inv := Recalled(contexts, other, INVENTORY_ID).value;
          var c := ClaimIdFor(BookingOf(sagas[other]));
          assert Owns(sagas, contexts, other, inv, c);
          assert (inv, c) != (inventoryId, claimId);
        }
      }
    }
  }

  lemma OtherClaims(sagas: Sagas, contexts: Contexts, w: World, id: SagaId, sagas': Sagas, contexts': Contexts,
                    w': World,
                    inventoryId: string, claimId: string)
    requires ClaimsOwned(sagas, contexts, w) && OwnedOnce(sagas, contexts)
    requires Owns(sagas, contexts, id, inventoryId, claimId)
    requires forall inv, c :: Held(w', inv, c) <==> Held(w, inv, c) && (inv, c) != (inventoryId, claimId)
    requires forall other, inv, c :: Owns(sagas', contexts', other, inv, c) <==>
        Owns(sagas, contexts, other, inv, c) && other != id
    requires Recalled(contexts, id, INVENTORY_ID) == Some(inventoryId)
    requires Recalled(contexts, id, CLAIM_ID) == Some(claimId)
    ensures ClaimsOwned(sagas', contexts', w') && OwnedOnce(sagas', contexts')
  {
    hide Held, Recalled, Holder;
    forall inv, c | Held(w', inv, c) ensures exists other :: Owns(sagas', contexts', other, inv, c) {
      var other :| Owns(sagas, contexts, other, inv, c);
      assert other != id;
      assert Owns(sagas', contexts', other, inv, c);
    }
  }

  /** A first unit of work that commits: a new instance answers for a new claim. */
  lemma HolderClaims(sagas: Sagas, contexts: Contexts, w: World, id: SagaId, x: SagaInstance, contexts': Contexts,
                     w': World,
                     inventoryId: string, claim: Claim)
    requires Safe(sagas, contexts, w) && id !in sagas && Shape(x) && Holder(x)
    requires OthersRecall(contexts, contexts', id)
    requires Recalled(contexts', id, INVENTORY_ID) == Some(inventoryId)
    requires Recalled(contexts', id, CLAIM_ID) == Some(claim.claimId)
    requires claim.claimId == ClaimIdFor(BookingOf(x))
    requires inventoryId in w.inventories && !Held(w, inventoryId, claim.claimId)
    requires w' == WithClaim(w, inventoryId, claim).(payments := w'.payments)
    ensures Safe(sagas[id := x], contexts', w')
  {
    hide Shape, Recalled, FirstUnitDone, EndedAt;
    var sagas', claimId := sagas[id := x], claim.claimId;
    forall inv, c ensures Held(w', inv, c) <==> Held(w, inv, c) || (inv, c) == (inventoryId, claimId) {
    }
    BookingsStay(sagas, contexts, w, id, x, contexts', w');
    forall other, inv, c
      ensures Owns(sagas', contexts', other, inv, c) <==>
          Owns(sagas, contexts, other, inv, c) || (other, inv, c) == (id, inventoryId, claimId)
    {
      OwnersKept(sagas, contexts, id, x, contexts', other, inv, c);
    }
    MoreHolders(sagas, contexts, w, id, x, contexts', w', inventoryId, claimId);
    MoreClaims(sagas, contexts, w, id, sagas', contexts', w', inventoryId, claimId);
  }

  lemma MoreHolders(sagas: Sagas, contexts: Contexts, w: World, id: SagaId, x: SagaInstance, contexts': Contexts,
                    w': World,
                    inventoryId: string, claimId: string)
    requires HoldersHold(sagas, contexts, w) && Shape(x) && claimId == ClaimIdFor(BookingOf(x))
    requires OthersRecall(contexts, contexts', id)
    requires Recalled(contexts', id, INVENTORY_ID) == Some(inventoryId)
    requires Recalled(contexts', id, CLAIM_ID) == Some(claimId)
    requires forall inv, c :: Held(w', inv, c) <==> Held(w, inv, c) || (inv, c) == (inventoryId, claimId)
    ensures HoldersHold(sagas[id := x], contexts', w')
  {
    hide Shape, Holder, Recalled, Held;
    var sagas' := sagas[id := x];
    forall other | other in sagas'
      ensures Shape(sagas'[other]) && (Holder(sagas'[other]) ==> ClaimRemembered(sagas', contexts', w', other))
    {
      if other != id {
        assert SameRecall(contexts, contexts', other);
        assert other in sagas && Shape(sagas[other]);
        if Holder(sagas[other]) {
          assert ClaimRemembered(sagas, contexts, w, other);
        }
      }
    }
  }

  lemma MoreClaims(sagas: Sagas, contexts: Contexts, w: World, id: SagaId, sagas': Sagas, contexts': Contexts,
                   w': World,
                   inventoryId: string, claimId: string)
    requires HoldersHold(sagas, contexts, w) && ClaimsOwned(sagas, contexts, w) && OwnedOnce(sagas, contexts)
    requires !Held(w, inventoryId, claimId)
    requires forall inv, c :: Held(w', inv, c) <==> Held(w, inv, c) || (inv, c) == (inventoryId, claimId)
    requires forall other, inv, c ::
               Owns(sagas', contexts', other, inv, c) <==>
                   Owns(sagas, contexts, other, inv, c) || (other, inv, c) == (id, inventoryId, claimId)
    ensures ClaimsOwned(sagas', contexts', w') && OwnedOnce(sagas', contexts')
  {
    hide Held, Recalled, Holder, Shape;
    forall inv, c | Held(w', inv, c) ensures exists other :: Owns(sagas', contexts', other, inv, c) {
      if (inv, c) == (inventoryId, claimId) {
        assert Owns(sagas', contexts', id, inv, c);
      } else {
        var other :| Owns(sagas, contexts, other, inv, c);
        assert Owns(sagas', contexts', other, inv, c);
      }
    }
    forall other ensures !Owns(sagas, contexts, other, inventoryId, claimId) {
      if Owns(sagas, contexts, other, inventoryId, claimId) {
        OwnedIsHeld(sagas, contexts, w, other, inventoryId, claimId);
      }
    }
  }

  lemma OwnedIsHeld(sagas: Sagas, contexts: Contexts, w: World, id: SagaId, inventoryId: string, claimId: string)
    requires HoldersHold(sagas, contexts, w) && Owns(sagas, contexts, id, inventoryId, claimId)
    ensures Held(w, inventoryId, claimId)
  {
    assert ClaimRemembered(sagas, contexts, w, id);
  }

  /** A first unit of work that rolls back leaves an instance that answers for nothing. */
  lemma StartFails(sagas: Sagas, contexts: Contexts, w: World, id: SagaId, x: SagaInstance, contexts': Contexts)
    requires Safe(sagas, contexts, w) && id !in sagas && Shape(x) && !Holder(x)
    requires OthersRecall(contexts, contexts', id)
    ensures Safe(sagas[id := x], contexts', w)
  {
    hide Safe, Shape, Holder, BookingsBacked;
    SafeParts(sagas, contexts, w);
    var sagas' := sagas[id := x];
    forall other, inv, c ensures Owns(sagas', contexts', other, inv, c) <==> Owns(sagas, contexts, other, inv, c) {
      OwnersKept(sagas, contexts, id, x, contexts', other, inv, c);
    }
    SameOwners(sagas, contexts, w, sagas', contexts', w);
    BookingsStay(sagas, contexts, w, id, x, contexts', w);
    SameHolders(sagas, contexts, w, id, x, contexts');
    PartsSafe(sagas', contexts', w);
  }

  lemma SameHolders(sagas: Sagas, contexts: Contexts, w: World, id: SagaId, x: SagaInstance, contexts': Contexts)
    requires HoldersHold(sagas, contexts, w) && Shape(x) && !Holder(x) && OthersRecall(contexts, contexts', id)
    ensures HoldersHold(sagas[id := x], contexts', w)
  {
    hide Shape, Holder, Recalled, Held;
    var sagas' := sagas[id := x];
    forall other | other in sagas'
      ensures Shape(sagas'[other]) && (Holder(sagas'[other]) ==> ClaimRemembered(sagas', contexts', w, other))
    {
      if other != id {
        assert SameRecall(contexts, contexts', other);
        assert other in sagas && Shape(sagas[other]);
        if Holder(sagas[other]) {
          assert ClaimRemembered(sagas, contexts, w, other);
        }
      }
    }
  }
}
