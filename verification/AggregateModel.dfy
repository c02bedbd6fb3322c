/**
 * The aggregate store as values: which object is stored under which key, and what state each object is in. An object
 * is named by where it was when the unit of work began, or by its number among those made since.
 */
module AggregateModel {

  type Key = (string, string) // type and id
  type AggregateStates = map<Key, string>

  datatype ObjectName = Stored(key: Key) | Made(number: nat, key: Key)

  datatype Objects = Objects(
    entries: map<Key, ObjectName>, states: map<ObjectName, string>, held: seq<ObjectName>, made: nat)

  /** What client code does with aggregates; it keeps every reference it gets, by number. */
  datatype Op =
    | Get(key: Key)
    | Create(key: Key, state: string)
    | Mutate(held: nat, state: string)   // in place
    | Store(held: nat)                   // under its own type and identifier
    | RemoveAt(key: Key)

  /** Before anything is done, each stored object is the one stored under its key. */
  function Enter(states: AggregateStates): Objects {
    Objects(map k | k in states :: Stored(k), map k | k in states :: Stored(k) := states[k], [], 0)
  }

  /** The states by key. */
  function Leave(s: Objects): AggregateStates {
    map k | k in s.entries && s.entries[k] in s.states :: s.states[s.entries[k]]
  }

  lemma LeaveEnter(states: AggregateStates)
    ensures Leave(Enter(states)) == states
  {
  }

  function RunOp(s: Objects, op: Op): Objects {
    match op
    case Get(key) => if key in s.entries then s.(held := s.held + [s.entries[key]]) else s
    case Create(key, state) =>
      var made := Made(s.made, key);
      s.(states := s.states[made := state], held := s.held + [made], made := s.made + 1)
    case Mutate(n, state) => if n < |s.held| then s.(states := s.states[s.held[n] := state]) else s
    case Store(n) => if n < |s.held| then s.(entries := s.entries[s.held[n].key := s.held[n]]) else s
    case RemoveAt(key) => s.(entries := s.entries - {key})
  }

  function RunOps(s: Objects, ops: seq<Op>): Objects {
    if ops == [] then s else RunOp(RunOps(s, ops[..|ops| - 1]), ops[|ops| - 1])
  }

  /** Client code that gets a stored aggregate and changes it in place. */
  function ChangesInPlace(key: Key, state: string): seq<Op> {
    [Get(key), Mutate(0, state)]
  }

  lemma ChangedInPlace(s: Objects, key: Key, state: string)
    requires s.held == [] && key in s.entries && s.entries[key] == Stored(key)
    ensures var now := RunOps(s, ChangesInPlace(key, state));
      Stored(key) in now.states && now.states[Stored(key)] == state
  {
    var ops := ChangesInPlace(key, state);
    assert ops[..1] == [Get(key)] && ops[..1][..0] == [];
    assert RunOps(s, ops[..1]) == RunOp(s, Get(key));
  }

  /** Every object named is there and stored under its own key; numbers are not used twice. */
  predicate WellFormed(s: Objects) {
    && (forall k <- s.entries :: s.entries[k] in s.states && s.entries[k].key == k)
    && (forall i :: 0 <= i < |s.held| ==> s.held[i] in s.states)
    && (forall r <- s.states :: r.Made? ==> r.number < s.made)
  }

  lemma OneOp(s: Objects, op: Op)
    ensures RunOps(s, [op]) == RunOp(s, op)
  {
    assert [op][..0] == [] && RunOps(s, []) == s;
  }

  /** An aggregate that is got, changed in place and stored again, each through the same reference. */
  lemma GotChangedStored(s: Objects, key: Key, state: string)
    requires WellFormed(s) && key in s.entries
    ensures var n := |s.held|;
      Leave(RunOp(RunOp(RunOp(s, Get(key)), Mutate(n, state)), Store(n))) == Leave(s)[key := state]
  {
  }

  /** A removal takes the aggregate of that key out of the store, and no other; references to it stay. */
  lemma Removed(s: Objects, key: Key)
    requires WellFormed(s)
    ensures var after := RunOp(s, RemoveAt(key));
      && Leave(after) == Leave(s) - {key} && after.held == s.held
      && forall i :: 0 <= i < |s.held| ==> s.held[i] in after.states && after.states[s.held[i]] == s.states[s.held[i]]
  {
  }

  /** A new aggregate is in the store only once it is stored, under its own key, with the state it was made with. */
  lemma CreatedThenStored(s: Objects, key: Key, state: string)
    requires WellFormed(s)
    ensures var made := RunOp(s, Create(key, state));
      && Leave(made) == Leave(s) && |made.held| == |s.held| + 1
      && Leave(RunOp(made, Store(|s.held|))) == Leave(s)[key := state]
  {
  }

  /** A change in place shows in the store under the aggregate's key iff that very aggregate is stored there. */
  lemma ChangedShows(s: Objects, n: nat, state: string)
    requires WellFormed(s) && n < |s.held|
    ensures var after, key := RunOp(s, Mutate(n, state)), s.held[n].key;
      Leave(after) == if key in s.entries && s.entries[key] == s.held[n] then Leave(s)[key := state] else Leave(s)
  {
  }

  /** Asking for an aggregate that is not stored gives no reference. */
  lemma NothingGot(s: Objects, key: Key)
    requires WellFormed(s)
    ensures key in Leave(s) <==> key in s.entries
    ensures RunOp(s, Get(key)).held == if key in Leave(s) then s.held + [s.entries[key]] else s.held
    ensures RunOp(s, Get(key)).(held := s.held) == s
  {
  }

  /** What a rollback leaves: copies of what was, except that an object without a copier is as it is now. */
  function Restored(copiers: set<string>, before: AggregateStates, now: Objects): AggregateStates {
    map k | k in before ::
      if k.0 in copiers || Stored(k) !in now.states then before[k] else now.states[Stored(k)]
  }

  /** A rollback undoes everything iff no aggregate of a type without a copier was changed in place. */
  lemma RestoredIff(copiers: set<string>, before: AggregateStates, now: Objects)
    ensures Restored(copiers, before, now) == before <==>
              forall k <- before :: k.0 in copiers || Stored(k) !in now.states || now.states[Stored(k)] == before[k]
  {
    var restored := Restored(copiers, before, now);
    if restored == before {
      forall k | k in before ensures k.0 in copiers || Stored(k) !in now.states || now.states[Stored(k)] == before[k] {
        assert restored[k] == before[k];
      }
    }
  }

  /** Nothing was done since the snapshot. */
  lemma RestoredAtOnce(copiers: set<string>, states: AggregateStates)
    ensures Leave(Enter(states)) == states && Restored(copiers, states, Enter(states)) == states
  {
    RestoredIff(copiers, states, Enter(states));
  }
}
