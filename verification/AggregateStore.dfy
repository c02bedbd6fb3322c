/**
 * InMemoryAggregateStore over the heap: aggregates are mutable objects shared with client code, a snapshot holds
 * copies of them, and restoring puts copies of those copies back. An aggregate whose type has no copier is the same
 * object everywhere.
 */
module AggregateStore {
  import opened AggregateModel

  /** An aggregate: client code changes its state in place, but not its type and identifier. */
  class Aggregate {
    const key: Key
    var state: string

    constructor (key: Key, state: string)
      ensures this.key == key && this.state == state
    {
      this.key, this.state := key, state;
    }
  }

  type Entries = map<Key, Aggregate>

  function States(entries: Entries): AggregateStates
    reads entries.Values
  {
    map k | k in entries :: entries[k].state
  }

  /** The names known before stand for the same aggregates. */
  ghost predicate Extends(objects: map<ObjectName, Aggregate>, objects': map<ObjectName, Aggregate>) {
    forall r <- objects :: r in objects' && objects'[r] == objects[r]
  }

  lemma ExtendsTransitive(a: map<ObjectName, Aggregate>, b: map<ObjectName, Aggregate>, c: map<ObjectName, Aggregate>)
    requires Extends(a, b) && Extends(b, c)
    ensures Extends(a, c)
  {
  }

  /** Each name stands for one aggregate of its own. */
  ghost predicate NamesOk(objects: map<ObjectName, Aggregate>) {
    && (forall r <- objects :: objects[r].key == r.key)
    && (forall r <- objects, q <- objects :: r != q ==> objects[r] != objects[q])
  }

  ghost predicate StoredOk(stored: Entries, entries: map<Key, ObjectName>, objects: map<ObjectName, Aggregate>) {
    && stored.Keys == entries.Keys
    && (forall k <- entries :: entries[k] in objects && stored[k] == objects[entries[k]])
  }

  ghost predicate HeldOk(held: seq<Aggregate>, names: seq<ObjectName>, objects: map<ObjectName, Aggregate>) {
    |held| == |names| && forall i :: 0 <= i < |held| ==> names[i] in objects && held[i] == objects[names[i]]
  }

  class InMemoryAggregateStore {
    var aggregates: Entries
    var copiers: set<string>
    /** Every aggregate that is or was stored here, or that client code made while it worked here. */
    ghost var Repr: set<Aggregate>

    ghost predicate Valid()
      reads this
    {
      aggregates.Values <= Repr
    }

    /** Each aggregate is stored under its own type and identifier. */
    ghost predicate Keyed()
      reads this
    {
      forall k <- aggregates :: aggregates[k].key == k
    }

    constructor ()
      ensures Valid() && aggregates == map[] && copiers == {} && Repr == {}
    {
      aggregates, copiers, Repr := map[], {}, {};
    }

    method RegisterCopier(aggregateType: string)
      modifies `copiers
      ensures copiers == old(copiers) + {aggregateType}
    {
      copiers := copiers + {aggregateType};
    }

    /** put takes any type and identifier, also others than the aggregate's own. */
    method Put(key: Key, aggregate: Aggregate)
      requires Valid()
      modifies `aggregates, `Repr
      ensures Valid() && aggregates == old(aggregates)[key := aggregate] && Repr == old(Repr) + {aggregate}
    {
      aggregates := aggregates[key := aggregate];
      Repr := Repr + {aggregate};
    }

    method Remove(key: Key) returns (removed: bool)
      requires Valid()
      modifies `aggregates
      ensures Valid() && removed == (key in old(aggregates)) && aggregates == old(aggregates) - {key}
    {
      removed := key in aggregates;
      aggregates := aggregates - {key};
    }

    /** Every type in the store has a copier. */
    ghost predicate Copied(entries: Entries)
      reads this
    {
      forall k <- entries :: k.0 in copiers
    }

    /** A fresh copy of each aggregate whose type has a copier, and the aggregate itself otherwise. */
    method CopyEntries(source: Entries) returns (copy: Entries)
      ensures copy.Keys == source.Keys
      ensures forall k <- copy :: copy[k].key == source[k].key && copy[k].state == source[k].state
      ensures forall k <- copy :: if k.0 in copiers then fresh(copy[k]) else copy[k] == source[k]
      ensures forall a <- copy, b <- copy :: a != b && a.0 in copiers && b.0 in copiers ==> copy[a] != copy[b]
    {
      copy := map[];
      var todo := source.Keys;
      while todo != {}
        invariant todo <= source.Keys && copy.Keys == source.Keys - todo
        invariant forall k <- copy :: copy[k].key == source[k].key && copy[k].state == source[k].state
        invariant forall k <- copy :: if k.0 in copiers then fresh(copy[k]) else copy[k] == source[k]
        invariant forall a <- copy, b <- copy :: a != b && a.0 in copiers && b.0 in copiers ==> copy[a] != copy[b]
      {
        var k :| k in todo;
        var value := source[k];
        if k.0 in copiers {
          value := new Aggregate(source[k].key, source[k].state);
        }
        copy := copy[k := value];
        todo := todo - {k};
      }
    }

    method Snapshot() returns (snapshot: Entries)
      requires Valid()
      ensures snapshot.Keys == aggregates.Keys && States(snapshot) == States(aggregates)
      ensures forall k <- snapshot :: snapshot[k].key == aggregates[k].key
      ensures forall k <- snapshot :: if k.0 in copiers then fresh(snapshot[k]) else snapshot[k] == aggregates[k]
    {
      snapshot := CopyEntries(aggregates);
    }

    /** The snapshot itself is not put back, so it can be restored again; what has no copier is as it is now. */
    method Restore(snapshot: Entries)
      requires Valid()
      modifies `aggregates, `Repr
      ensures Valid() && aggregates.Keys == snapshot.Keys && States(aggregates) == States(snapshot)
      ensures forall k <- aggregates :: aggregates[k].key == snapshot[k].key
      ensures forall k <- aggregates :: if k.0 in copiers then fresh(aggregates[k]) else aggregates[k] == snapshot[k]
      ensures Repr == old(Repr) + aggregates.Values
    {
      aggregates := CopyEntries(snapshot);
      Repr := Repr + aggregates.Values;
    }

    /** A new store with the same copiers and copied entries. */
    method Copy() returns (copy: InMemoryAggregateStore)
      requires Valid()
      ensures fresh(copy) && copy.Valid() && copy.copiers == copiers && copy.Repr == copy.aggregates.Values
      ensures copy.aggregates.Keys == aggregates.Keys && States(copy.aggregates) == States(aggregates)
      ensures forall k <- aggregates :: copy.aggregates[k].key == aggregates[k].key
      ensures forall k <- aggregates ::
                if k.0 in copiers then fresh(copy.aggregates[k]) else copy.aggregates[k] == aggregates[k]
      ensures forall a <- aggregates, b <- aggregates ::
                a != b && a.0 in copiers && b.0 in copiers ==> copy.aggregates[a] != copy.aggregates[b]
      ensures Keyed() ==> copy.Keyed()
    {
      copy := new InMemoryAggregateStore();
      copy.copiers := copiers;
      var entries := CopyEntries(aggregates);
      copy.aggregates := entries;
      copy.Repr := entries.Values;
    }

    // ----- client code at work -------------------------------------------------------------------------------

    /** objects says which aggregate each name of s stands for: the store is in state s, client code holds held. */
    ghost predicate Represents(s: Objects, objects: map<ObjectName, Aggregate>, held: seq<Aggregate>)
      reads this, Repr
    {
      && WellFormed(s) && objects.Keys == s.states.Keys && NamesOk(objects)
      && (forall r <- objects :: objects[r] in Repr)
      && (forall r <- objects :: objects[r].state == s.states[r])
      && StoredOk(aggregates, s.entries, objects) && HeldOk(held, s.held, objects)
    }

    /** What the store holds when the unit of work begins. */
    ghost function Initially(): map<ObjectName, Aggregate>
      reads this
    {
      map k | k in aggregates :: Stored(k) := aggregates[k]
    }

    lemma InitiallyRepresents()
      requires Valid() && Keyed()
      ensures Represents(Enter(States(aggregates)), Initially(), []) && Enter(States(aggregates)).held == []
    {
    }

    lemma RepresentsStates(s: Objects, objects: map<ObjectName, Aggregate>, held: seq<Aggregate>)
      requires Represents(s, objects, held)
      ensures States(aggregates) == Leave(s) && Keyed()
    {
    }

    /** Client code's view never leaves Repr, and what it makes is new. */
    twostate predicate Grown()
      reads this
    {
      old(Repr) <= Repr && fresh(Repr - old(Repr))
    }

    method Perform(op: Op, held: seq<Aggregate>, ghost s: Objects, ghost objects: map<ObjectName, Aggregate>)
      returns (held': seq<Aggregate>, ghost objects': map<ObjectName, Aggregate>)
      requires Valid() && forall a <- held :: a in Repr
      modifies `aggregates, `Repr, Repr
      ensures Valid() && Grown() && (forall a <- held' :: a in Repr) && (old(Keyed()) ==> Keyed())
      ensures old(Represents(s, objects, held)) ==>
                Represents(RunOp(s, op), objects', held') && Extends(objects, objects')
    {
      hide Represents, RunOp;
      match op
      case Get(key) =>
        held' := PerformGet(key, held, s, objects);
        objects' := objects;
      case Create(key, state) =>
        held', objects' := PerformCreate(key, state, held, s, objects);
      case Mutate(n, state) =>
        PerformMutate(n, state, held, s, objects);
        held', objects' := held, objects;
      case Store(n) =>
        PerformStore(n, held, s, objects);
        held', objects' := held, objects;
      case RemoveAt(key) =>
        PerformRemove(key, held, s, objects);
        held', objects' := held, objects;
    }

    method PerformGet(key: Key, held: seq<Aggregate>, ghost s: Objects, ghost objects: map<ObjectName, Aggregate>)
      returns (held': seq<Aggregate>)
      requires Valid() && forall a <- held :: a in Repr
      ensures forall a <- held' :: a in Repr
      ensures Represents(s, objects, held) ==> Represents(RunOp(s, Get(key)), objects, held')
    {
      hide NamesOk;
      held' := held;
      if key in aggregates {
        assert aggregates[key] in aggregates.Values;
        held' := held + [aggregates[key]];
      }
    }

    method PerformCreate(key: Key, state: string, held: seq<Aggregate>, ghost s: Objects,
                         ghost objects: map<ObjectName, Aggregate>)
      returns (held': seq<Aggregate>, ghost objects': map<ObjectName, Aggregate>)
      requires Valid() && forall a <- held :: a in Repr
      modifies `Repr
      ensures Valid() && Grown() && forall a <- held' :: a in Repr
      ensures old(Represents(s, objects, held)) ==>
                Represents(RunOp(s, Create(key, state)), objects', held') && Extends(objects, objects')
    {
      hide NamesOk, StoredOk, HeldOk, WellFormed, RunOp;
      ghost var known, before := Represents(s, objects, held), Repr;
      var aggregate := new Aggregate(key, state);
      held' := held + [aggregate];
      objects' := objects[Made(s.made, key) := aggregate];
      Repr := Repr + {aggregate};
      if known {
        NewName(s, objects, held, aggregate, before);
      }
    }

    /** A new aggregate under a new name: every other name stands for what it did. */
    lemma NewName(s: Objects, objects: map<ObjectName, Aggregate>, held: seq<Aggregate>, aggregate: Aggregate,
                  before: set<Aggregate>)
      requires WellFormed(s) && objects.Keys == s.states.Keys && NamesOk(objects)
      requires StoredOk(aggregates, s.entries, objects) && HeldOk(held, s.held, objects)
      requires forall r <- objects :: objects[r] in before && objects[r].state == s.states[r]
      requires Repr == before + {aggregate} && aggregate !in before
      ensures var objects' := objects[Made(s.made, aggregate.key) := aggregate];
        && Represents(RunOp(s, Create(aggregate.key, aggregate.state)), objects', held + [aggregate])
        && Extends(objects, objects')
    {
      assert Made(s.made, aggregate.key) !in s.states;
    }

    method PerformMutate(n: nat, state: string, held: seq<Aggregate>, ghost s: Objects,
                         ghost objects: map<ObjectName, Aggregate>)
      requires Valid() && forall a <- held :: a in Repr
      modifies Repr
      ensures Valid()
      ensures old(Represents(s, objects, held)) ==> Represents(RunOp(s, Mutate(n, state)), objects, held)
    {
      hide StoredOk;
      if n < |held| {
        assert held[n] in held;
        held[n].state := state;
      }
    }

    method PerformStore(n: nat, held: seq<Aggregate>, ghost s: Objects, ghost objects: map<ObjectName, Aggregate>)
      requires Valid() && forall a <- held :: a in Repr
      modifies `aggregates, `Repr
      ensures Valid() && Repr == old(Repr) && (old(Keyed()) ==> Keyed())
      ensures old(Represents(s, objects, held)) ==> Represents(RunOp(s, Store(n)), objects, held)
    {
      if n < |held| {
        assert held[n] in held;
        Put(held[n].key, held[n]);
        assert Repr == old(Repr);
      }
    }

    method PerformRemove(key: Key, held: seq<Aggregate>, ghost s: Objects, ghost objects: map<ObjectName, Aggregate>)
      requires Valid()
      modifies `aggregates
      ensures Valid() && (old(Keyed()) ==> Keyed())
      ensures old(Represents(s, objects, held)) ==> Represents(RunOp(s, RemoveAt(key)), objects, held)
    {
      hide NamesOk;
      var removed := Remove(key);
    }

    /** Client code at work, with the references it has and gets. */
    method Work(ops: seq<Op>, held: seq<Aggregate>, ghost s: Objects, ghost objects: map<ObjectName, Aggregate>)
      returns (held': seq<Aggregate>, ghost objects': map<ObjectName, Aggregate>)
      requires Valid() && Represents(s, objects, held)
      modifies `aggregates, `Repr, Repr
      ensures Valid() && Grown() && Represents(RunOps(s, ops), objects', held') && Extends(objects, objects')
    {
      hide Represents, RunOp;
      HeldInRepr(s, objects, held);
      held', objects' := held, objects;
      ghost var now := s;
      for i := 0 to |ops|
        invariant Valid() && Grown() && (forall a <- held' :: a in Repr)
        invariant now == RunOps(s, ops[..i])
        invariant Represents(now, objects', held') && Extends(objects, objects')
      {
        assert ops[..i + 1][..i] == ops[..i];
        held', objects' := Perform(ops[i], held', now, objects');
        now := RunOp(now, ops[i]);
      }
      assert ops[..|ops|] == ops;
    }

    lemma HeldInRepr(s: Objects, objects: map<ObjectName, Aggregate>, held: seq<Aggregate>)
      requires Represents(s, objects, held)
      ensures forall a <- held :: a in Repr
    {
    }

    // ----- a rollback ----------------------------------------------------------------------------------------

    /** Copies client code cannot reach, and the objects themselves where there is no copier. */
    ghost predicate Copies(copies: Entries, before: AggregateStates, objects: map<ObjectName, Aggregate>)
      reads this, copies.Values
    {
      && copies.Keys == before.Keys
      && (forall k <- copies :: k.0 in copiers ==>
            copies[k] !in Repr && copies[k].key == k && copies[k].state == before[k])
      && (forall k <- copies :: k.0 !in copiers ==> Stored(k) in objects && copies[k] == objects[Stored(k)])
    }

    method TakeCopies() returns (copies: Entries)
      requires Valid() && Keyed()
      ensures Copies(copies, States(aggregates), Initially())
    {
      copies := Snapshot();
      forall k | k in copies && k.0 in copiers ensures copies[k] !in Repr {
        assert fresh(copies[k]);
      }
    }

    /** Copies of the copies go back, and the very objects where there is no copier, whatever was done to them. */
    method RestoreCopies(copies: Entries, ghost before: AggregateStates, ghost now: Objects,
                         ghost objects: map<ObjectName, Aggregate>, ghost held: seq<Aggregate>)
      requires Valid() && Copies(copies, before, objects) && Represents(now, objects, held)
      modifies `aggregates, `Repr
      ensures Valid() && Keyed() && Grown() && States(aggregates) == Restored(copiers, before, now)
    {
      hide Represents, Copies, Restored, States;
      RestoredStates(copies, before, now, objects, held);
      Restore(copies);
      forall a | a in aggregates.Values ensures a in old(Repr) || fresh(a) {
        var k :| k in aggregates && aggregates[k] == a;
      }
    }

    lemma RestoredStates(copies: Entries, before: AggregateStates, now: Objects, objects: map<ObjectName, Aggregate>,
                         held: seq<Aggregate>)
      requires Copies(copies, before, objects) && Represents(now, objects, held)
      ensures States(copies) == Restored(copiers, before, now)
      ensures forall k <- copies :: copies[k].key == k && (k.0 !in copiers ==> copies[k] in Repr)
    {
      hide StoredOk, HeldOk, WellFormed;
    }

    // ----- client code that keeps what it got ----------------------------------------------------------------

    /** Client code that keeps every reference it ever got, from one time to the next. */
    method Roam(ops: seq<Op>, held: seq<Aggregate>) returns (held': seq<Aggregate>)
      requires Valid() && forall a <- held :: a in Repr
      modifies `aggregates, `Repr, Repr
      ensures Valid() && Grown() && (forall a <- held' :: a in Repr) && (old(Keyed()) ==> Keyed())
    {
      hide Represents, RunOp;
      held' := held;
      ghost var s, objects := Enter(map[]), map[];
      for i := 0 to |ops|
        invariant Valid() && Grown() && (forall a <- held' :: a in Repr) && (old(Keyed()) ==> Keyed())
      {
        held', objects := Perform(ops[i], held', s, objects);
      }
    }

    // ----- snapshots are apart -------------------------------------------------------------------------------

    /**
     * With a copier for every stored type, nothing client code does shows after a restore, whatever references it
     * keeps and however often the same snapshot is restored: the snapshot's aggregates are never handed out.
     */
    method SnapshotSeparates(rounds: seq<seq<Op>>, held: seq<Aggregate>)
      requires Valid() && Copied(aggregates) && forall a <- held :: a in Repr
      modifies `aggregates, `Repr, Repr
      ensures Valid() && States(aggregates) == old(States(aggregates))
    {
      var snapshot := Snapshot();
      assert forall k <- snapshot :: snapshot[k] !in Repr;
      ghost var states := States(snapshot);
      var held' := held;
      for i := 0 to |rounds|
        invariant Valid() && Grown() && (forall a <- held' :: a in Repr) && copiers == old(copiers)
        invariant (forall k <- snapshot :: snapshot[k] !in Repr) && Copied(snapshot)
        invariant States(snapshot) == states && States(aggregates) == states
      {
        held' := RoamThenRestore(rounds[i], held', snapshot);
      }
    }

    method RoamThenRestore(ops: seq<Op>, held: seq<Aggregate>, snapshot: Entries) returns (held': seq<Aggregate>)
      requires Valid() && (forall a <- held :: a in Repr) && Copied(snapshot)
      requires forall k <- snapshot :: snapshot[k] !in Repr
      modifies `aggregates, `Repr, Repr
      ensures Valid() && Grown() && forall a <- held' :: a in Repr
      ensures forall k <- snapshot :: snapshot[k] !in Repr
      ensures States(snapshot) == old(States(snapshot)) && States(aggregates) == States(snapshot)
    {
      hide States;
      held' := Roam(ops, held);
      Restore(snapshot);
      forall a | a in aggregates.Values ensures fresh(a) {
        var k :| k in aggregates && aggregates[k] == a;
      }
    }

    /**
     * Without a copier the restored entry is the very object that was stored: an in-place change survives exactly
     * when there was one.
     */
    method UncopiedChangeSurvives(key: Key, state: string)
      requires Valid() && key in aggregates && key.0 !in copiers
      modifies `aggregates, `Repr, aggregates[key]
      ensures key in aggregates && aggregates[key] == old(aggregates[key]) && aggregates[key].state == state
      ensures aggregates[key].state == old(aggregates[key].state) <==> state == old(aggregates[key].state)
    {
      var snapshot := Snapshot();
      aggregates[key].state := state;
      Restore(snapshot);
    }

    // ----- copies are apart, as far as there are copiers -----------------------------------------------------

    /** The stored aggregates a copy of the store shares. */
    ghost function Shared(): set<Aggregate>
      reads this
    {
      set k | k in aggregates && k.0 !in copiers :: aggregates[k]
    }

    /**
     * Client code at work in a copy of the store, whatever references it keeps there, changes no aggregate here whose
     * type has a copier; with a copier for every stored type it changes nothing here.
     */
    method CopySeparates(rounds: seq<seq<Op>>) returns (copy: InMemoryAggregateStore)
      requires Valid() && Keyed()
      modifies Shared()
      ensures fresh(copy) && aggregates == old(aggregates)
      ensures forall k <- aggregates :: k.0 in copiers ==> aggregates[k].state == old(aggregates[k].state)
      ensures Copied(aggregates) ==> States(aggregates) == old(States(aggregates))
    {
      copy := Copy();
      forall a | a in copy.Repr ensures fresh(a) || a in Shared() {
        var k :| k in copy.aggregates && copy.aggregates[k] == a;
      }
      var held: seq<Aggregate> := [];
      for i := 0 to |rounds|
        invariant fresh(copy) && copy.Valid() && forall a <- held :: a in copy.Repr
        invariant forall a <- copy.Repr :: fresh(a) || a in Shared()
        invariant forall k <- aggregates :: k.0 in copiers ==> aggregates[k].state == old(aggregates[k].state)
      {
        held := copy.Roam(rounds[i], held);
      }
    }

    /** Without a copier a change made through the copy is a change made here. */
    method UncopiedIsShared(key: Key, state: string) returns (copy: InMemoryAggregateStore)
      requires Valid() && key in aggregates && key.0 !in copiers
      modifies aggregates[key]
      ensures aggregates == old(aggregates) && aggregates[key].state == state
    {
      copy := Copy();
      copy.aggregates[key].state := state;
    }

    /** With one registered it is not. */
    method CopierSeparates(key: Key, state: string) returns (copy: InMemoryAggregateStore)
      requires Valid() && key in aggregates
      modifies `copiers
      ensures copiers == old(copiers) + {key.0}
      ensures aggregates == old(aggregates) && aggregates[key].state == old(aggregates[key].state)
      ensures key in copy.aggregates && copy.aggregates[key].state == state
    {
      RegisterCopier(key.0);
      copy := Copy();
      copy.aggregates[key].state := state;
    }

    /** An aggregate put under two keys is copied twice: the copy no longer has one aggregate for both. */
    method AliasIsSplit(aggregate: Aggregate, a: Key, b: Key) returns (copy: InMemoryAggregateStore)
      requires Valid() && a != b && a.0 in copiers && b.0 in copiers
      modifies `aggregates, `Repr
      ensures a in aggregates && b in aggregates && aggregates[a] == aggregates[b]
      ensures a in copy.aggregates && b in copy.aggregates && copy.aggregates[a] != copy.aggregates[b]
    {
      Put(a, aggregate);
      Put(b, aggregate);
      copy := Copy();
    }
  }
}
