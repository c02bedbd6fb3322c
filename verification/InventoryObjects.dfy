/**
 * Inventory and InventoryRepository as the shared, mutable objects they are, and the proof that a command run against
 * them changes the world as the booking protocol's functions say.
 */
module InventoryObjects {
  import opened Spi
  import opened UnitOfWork
  import opened Booking

  /** What a handler did: the event it recorded, or what it threw. */
  datatype Handled = Recording(event: Event) | Threw(cause: Cause)

  class Inventory {
    const inventoryId: string
    var claims: map<string, Claim>
    var armed: bool

    constructor (inventoryId: string)
      ensures this.inventoryId == inventoryId && claims == map[] && !armed
    {
      this.inventoryId, claims, armed := inventoryId, map[], false;
    }

    /** The next handle call throws after its change. */
    method FailNext()
      modifies `armed
      ensures armed
    {
      armed := true;
    }

    /** A one-shot failure comes after the change, which only a rollback undoes. */
    method HandleClaim(bookingId: string, checkIn: string, checkOut: string) returns (handled: Handled)
      modifies this
      ensures var claimId := ClaimIdFor(bookingId);
        && claims == (if claimId in old(claims) then old(claims)
                      else old(claims)[claimId := Claim(claimId, bookingId, checkIn, checkOut)])
        && handled == (if claimId in old(claims) then Threw(ILLEGAL_STATE)
                       else if old(armed) then Threw(INJECTED)
                       else Recording(AvailabilityClaimed(inventoryId, bookingId, claimId)))
        && armed == (old(armed) && claimId in old(claims))
    {
      var claimId := ClaimIdFor(bookingId);
      if claimId in claims {
        return Threw(ILLEGAL_STATE);
      }
      claims := claims[claimId := Claim(claimId, bookingId, checkIn, checkOut)];
      if armed {
        armed := false;
        return Threw(INJECTED);
      }
      return Recording(AvailabilityClaimed(inventoryId, bookingId, claimId));
    }

    method HandleRelease(bookingId: string, claimId: string) returns (handled: Handled)
      modifies this
      ensures claims == old(claims) - {claimId}
      ensures handled == (if claimId !in old(claims) then Threw(ILLEGAL_STATE)
                          else if old(armed) then Threw(INJECTED)
                          else Recording(AvailabilityReleased(inventoryId, bookingId, claimId)))
      ensures armed == (old(armed) && claimId !in old(claims))
    {
      if claimId !in claims {
        return Threw(ILLEGAL_STATE);
      }
      claims := claims - {claimId};
      if armed {
        armed := false;
        return Threw(INJECTED);
      }
      return Recording(AvailabilityReleased(inventoryId, bookingId, claimId));
    }

    /** A copy of the claims, with no armed failure. */
    method Copy() returns (copy: Inventory)
      ensures fresh(copy) && copy.inventoryId == inventoryId && copy.claims == claims && !copy.armed
    {
      copy := new Inventory(inventoryId);
      copy.claims := claims;
    }
  }

  class InventoryRepository {
    var inventories: map<string, Inventory>
    var saveCount: nat

    constructor ()
      ensures inventories == map[] && saveCount == 0
    {
      inventories, saveCount := map[], 0;
    }

    /** Each inventory is stored once, under its own id. */
    ghost predicate Valid()
      reads this
    {
      forall id <- inventories :: inventories[id].inventoryId == id
    }

    /** The claims held, by inventory: the protocol's view of the repository. */
    ghost function Claims(): map<string, map<string, Claim>>
      reads this, inventories.Values
    {
      map id | id in inventories :: inventories[id].claims
    }

    /** The stored object itself: a change to it is a change to what is stored. */
    method Load(inventoryId: string) returns (inventory: Inventory?)
      ensures inventory == if inventoryId in inventories then inventories[inventoryId] else null
    {
      inventory := if inventoryId in inventories then inventories[inventoryId] else null;
    }

    method Save(inventory: Inventory)
      requires Valid()
      modifies this
      ensures Valid() && inventories == old(inventories)[inventory.inventoryId := inventory]
      ensures saveCount == old(saveCount) + 1
    {
      inventories := inventories[inventory.inventoryId := inventory];
      saveCount := saveCount + 1;
    }

    method CopyAll(source: map<string, Inventory>) returns (copies: map<string, Inventory>)
      requires forall id <- source :: source[id].inventoryId == id
      ensures copies.Keys == source.Keys
      ensures forall id <- copies ::
          fresh(copies[id]) && copies[id].inventoryId == id && copies[id].claims == source[id].claims
    {
      copies := map[];
      var todo := source.Keys;
      while todo != {}
        invariant todo <= source.Keys && copies.Keys == source.Keys - todo
        invariant forall id <- copies ::
            fresh(copies[id]) && copies[id].inventoryId == id && copies[id].claims == source[id].claims
      {
        var id :| id in todo;
        var copy := source[id].Copy();
        copies := copies[id := copy];
        todo := todo - {id};
      }
    }

    method Snapshot() returns (snapshot: map<string, Inventory>)
      requires Valid()
      ensures snapshot.Keys == inventories.Keys
      ensures forall id <- snapshot ::
          fresh(snapshot[id]) && snapshot[id].inventoryId == id && snapshot[id].claims == inventories[id].claims
    {
      snapshot := CopyAll(inventories);
    }

    /** Puts copies back: the save count is not part of the state that is restored. */
    method Restore(snapshot: map<string, Inventory>)
      requires forall id <- snapshot :: snapshot[id].inventoryId == id
      modifies `inventories
      ensures Valid() && inventories.Keys == snapshot.Keys
      ensures forall id <- inventories :: fresh(inventories[id]) && inventories[id].claims == snapshot[id].claims
    {
      inventories := CopyAll(snapshot);
    }

    /** The route of ClaimAvailability: load, handle, save. None where it throws. */
    method ClaimThrough(inventoryId: string, bookingId: string, checkIn: string, checkOut: string, ghost w: World)
      returns (event: Option<Event>)
      requires Valid() && Claims() == w.inventories
      modifies this, inventories.Values
      ensures Valid()
      ensures var claim := Claim(ClaimIdFor(bookingId), bookingId, checkIn, checkOut);
        && (event.Some? ==> inventoryId in w.inventories && !Held(w, inventoryId, claim.claimId)
                            && event.value == AvailabilityClaimed(inventoryId, bookingId, claim.claimId))
        && Claims() == (if inventoryId in w.inventories && !Held(w, inventoryId, claim.claimId)
                        then WithClaim(w, inventoryId, claim).inventories else w.inventories)
        && saveCount == old(saveCount) + (if event.Some? then 1 else 0)
    {
      hide Claims;
      var inventory := Load(inventoryId);
      StoredClaims(inventoryId);
      if inventory == null {
        return None;
      }
      var handled := ClaimIn(inventory, bookingId, checkIn, checkOut);
      if handled.Threw? {
        return None;
      }
      SaveAgain(inventory);
      return Some(handled.event);
    }

    /** A claim in a stored inventory is a claim in the repository. */
    method ClaimIn(inventory: Inventory, bookingId: string, checkIn: string, checkOut: string)
      returns (handled: Handled)
      requires Valid() && inventory.inventoryId in inventories && inventories[inventory.inventoryId] == inventory
      modifies inventory
      ensures handled.Recording? ==>
                && ClaimIdFor(bookingId) !in old(inventory.claims)
                && handled.event == AvailabilityClaimed(inventory.inventoryId, bookingId, ClaimIdFor(bookingId))
      ensures var claim := Claim(ClaimIdFor(bookingId), bookingId, checkIn, checkOut);
        Claims() == old(Claims())[inventory.inventoryId :=
          if claim.claimId in old(inventory.claims) then old(inventory.claims)
          else old(inventory.claims)[claim.claimId := claim]]
    {
      ghost var before := Claims();
      OneObjectEach();
      handled := inventory.HandleClaim(bookingId, checkIn, checkOut);
      OneChanged(before, inventory.inventoryId);
    }

    method ReleaseIn(inventory: Inventory, bookingId: string, claimId: string) returns (handled: Handled)
      requires Valid() && inventory.inventoryId in inventories && inventories[inventory.inventoryId] == inventory
      modifies inventory
      ensures handled.Recording? ==>
                && claimId in old(inventory.claims)
                && handled.event == AvailabilityReleased(inventory.inventoryId, bookingId, claimId)
      ensures Claims() == old(Claims())[inventory.inventoryId := old(inventory.claims) - {claimId}]
    {
      ghost var before := Claims();
      OneObjectEach();
      handled := inventory.HandleRelease(bookingId, claimId);
      OneChanged(before, inventory.inventoryId);
    }

    lemma OneChanged(before: map<string, map<string, Claim>>, inventoryId: string)
      requires inventoryId in inventories && before.Keys == inventories.Keys
      requires forall id <- before :: id != inventoryId ==> before[id] == inventories[id].claims
      ensures Claims() == before[inventoryId := inventories[inventoryId].claims]
    {
    }

    lemma StoredClaims(inventoryId: string)
      ensures inventoryId in inventories <==> inventoryId in Claims()
      ensures inventoryId in inventories ==> Claims()[inventoryId] == inventories[inventoryId].claims
    {
    }

    /** Saving an inventory where it is stored counts, and changes nothing else. */
    method SaveAgain(inventory: Inventory)
      requires Valid() && inventory.inventoryId in inventories && inventories[inventory.inventoryId] == inventory
      modifies this
      ensures Valid() && Claims() == old(Claims()) && saveCount == old(saveCount) + 1
    {
      Save(inventory);
      assert inventories == old(inventories);
    }

    /** The route of ReleaseAvailability. */
    method ReleaseThrough(inventoryId: string, bookingId: string, claimId: string, ghost w: World)
      returns (event: Option<Event>)
      requires Valid() && Claims() == w.inventories
      modifies this, inventories.Values
      ensures Valid()
      ensures event.Some? ==>
          Held(w, inventoryId, claimId) && event.value == AvailabilityReleased(inventoryId, bookingId, claimId)
      ensures Claims() == if Held(w, inventoryId, claimId) then WithoutClaim(w, inventoryId, claimId).inventories
          else w.inventories
      ensures saveCount == old(saveCount) + (if event.Some? then 1 else 0)
    {
      hide Claims;
      var inventory := Load(inventoryId);
      StoredClaims(inventoryId);
      if inventory == null {
        return None;
      }
      var handled := ReleaseIn(inventory, bookingId, claimId);
      if handled.Threw? {
        assert claimId !in w.inventories[inventoryId] ==>
                 w.inventories[inventoryId] - {claimId} == w.inventories[inventoryId];
        return None;
      }
      SaveAgain(inventory);
      return Some(handled.event);
    }

    lemma OneObjectEach()
      requires Valid()
      ensures forall a <- inventories, b <- inventories :: a != b ==> inventories[a] != inventories[b]
    {
    }

    /** The claims a snapshot holds. */
    ghost predicate Keeps(snapshot: map<string, Inventory>, claims: map<string, map<string, Claim>>)
      reads snapshot.Values
    {
      snapshot.Keys == claims.Keys && forall id <- snapshot ::
          snapshot[id].inventoryId == id && snapshot[id].claims == claims[id]
    }

    method SnapshotKept() returns (snapshot: map<string, Inventory>)
      requires Valid()
      ensures Keeps(snapshot, Claims()) && forall a <- snapshot.Values :: fresh(a)
    {
      snapshot := Snapshot();
      forall a | a in snapshot.Values ensures fresh(a) {
        var id :| id in snapshot && snapshot[id] == a;
      }
    }

    method RestoreKept(snapshot: map<string, Inventory>, ghost claims: map<string, map<string, Claim>>)
      requires Keeps(snapshot, claims)
      modifies `inventories
      ensures Valid() && Claims() == claims && Keeps(snapshot, claims)
    {
      Restore(snapshot);
    }

    /** The next handle call in that inventory throws after its change. */
    method Arm(inventoryId: string)
      requires inventoryId in inventories
      modifies inventories[inventoryId]
      ensures inventories[inventoryId].armed && Claims() == old(Claims())
    {
      inventories[inventoryId].FailNext();
    }

    /** A claim, whether it throws or not, is gone after a restore, and after any further one; saves stay counted. */
    method ClaimThenRollBack(inventoryId: string, bookingId: string, checkIn: string, checkOut: string, arm: bool,
                             times: nat)
      requires Valid()
      modifies this, inventories.Values
      ensures Valid() && Claims() == old(Claims()) && saveCount >= old(saveCount)
    {
      hide WithClaim, Held, Keeps, Claims;
      var snapshot := SnapshotKept();
      ghost var claims := Claims();
      if arm && inventoryId in inventories {
        Arm(inventoryId);
      }
      var event := ClaimThrough(inventoryId, bookingId, checkIn, checkOut, World(claims, map[], map[]));
      RestoreAgain(snapshot, times, claims);
    }

    method RestoreAgain(snapshot: map<string, Inventory>, times: nat, ghost claims: map<string, map<string, Claim>>)
      requires Keeps(snapshot, claims)
      modifies `inventories
      ensures Valid() && Claims() == claims
    {
      hide Keeps, Claims;
      RestoreKept(snapshot, claims);
      for i := 0 to times
        invariant Valid() && Claims() == claims && Keeps(snapshot, claims)
      {
        RestoreKept(snapshot, claims);
      }
    }
  }
}
