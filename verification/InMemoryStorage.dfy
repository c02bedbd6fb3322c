/** InMemoryStorageProvider: instances in insertion order, one per saga id, like the LinkedHashMap behind it. */
module InMemoryStorage {
  import opened Spi

  type Instances = seq<SagaInstance>

  predicate DistinctIds(s: Instances) {
    forall i, j :: 0 <= i < j < |s| ==> s[i].sagaId != s[j].sagaId
  }

  function Find(s: Instances, id: SagaId): (r: Option<SagaInstance>)
    ensures r.Some? ==> r.value in s && r.value.sagaId == id
    ensures r.None? <==> forall i :: 0 <= i < |s| ==> s[i].sagaId != id
  {
    if s == [] then None
    else if s[0].sagaId == id then Some(s[0])
    else Find(s[1..], id)
  }

  /** LinkedHashMap.put: in place if the id is known, else at the end. */
  function Put(s: Instances, instance: SagaInstance): (r: Instances) {
    if s == [] then [instance]
    else if s[0].sagaId == instance.sagaId then [instance] + s[1..]
    else [s[0]] + Put(s[1..], instance)
  }

  function Remove(s: Instances, id: SagaId): Instances {
    if s == [] then [] else (if s[0].sagaId == id then [] else [s[0]]) + Remove(s[1..], id)
  }

  function Matching(s: Instances, property: string, value: string): (r: Instances)
    ensures forall x :: x in r <==> x in s && Associated(x, property, value)
  {
    if s == [] then []
    else (if Associated(s[0], property, value) then [s[0]] else []) + Matching(s[1..], property, value)
  }

  lemma {:induction false} MatchingDistinct(s: Instances, property: string, value: string)
    requires DistinctIds(s)
    ensures DistinctIds(Matching(s, property, value))
  {
    if s != [] {
      MatchingDistinct(s[1..], property, value);
      assert forall x :: x in s[1..] ==> x.sagaId != s[0].sagaId;
    }
  }

  // ----- what put does ---------------------------------------------------------------------------------------

  lemma {:induction false} FindPut(s: Instances, instance: SagaInstance, id: SagaId)
    ensures Find(Put(s, instance), id) == if id == instance.sagaId then Some(instance) else Find(s, id)
  {
    if s != [] {
      FindPut(s[1..], instance, id);
    }
  }

  /** Nothing but the entry of id differs: no other instance, and not the order. */
  predicate SameExcept(s: Instances, s': Instances, id: SagaId) {
    && |s| == |s'|
    && forall i :: 0 <= i < |s| ==> s[i].sagaId == s'[i].sagaId && (s[i].sagaId != id ==> s[i] == s'[i])
  }

  lemma {:induction false} PutInPlace(s: Instances, instance: SagaInstance)
    requires Find(s, instance.sagaId).Some?
    ensures SameExcept(s, Put(s, instance), instance.sagaId)
  {
    if s[0].sagaId != instance.sagaId {
      PutInPlace(s[1..], instance);
    }
  }

  lemma {:induction false} PutNew(s: Instances, instance: SagaInstance)
    requires Find(s, instance.sagaId).None?
    ensures Put(s, instance) == s + [instance]
  {
    if s != [] {
      PutNew(s[1..], instance);
    }
  }

  lemma {:induction false} PutDistinct(s: Instances, instance: SagaInstance)
    requires DistinctIds(s)
    ensures DistinctIds(Put(s, instance))
  {
    if Find(s, instance.sagaId).Some? {
      PutInPlace(s, instance);
    } else {
      PutNew(s, instance);
    }
  }

  lemma FindUnique(s: Instances, i: nat)
    requires DistinctIds(s) && i < |s|
    ensures Find(s, s[i].sagaId) == Some(s[i])
  {
    FindFirst(s, i);
  }

  lemma {:induction false} FindFirst(s: Instances, i: nat)
    requires i < |s| && forall j :: 0 <= j < i ==> s[j].sagaId != s[i].sagaId
    ensures Find(s, s[i].sagaId) == Some(s[i])
  {
    if i > 0 {
      FindFirst(s[1..], i - 1);
    }
  }

  /** The instances by id: what any StorageProvider stores. */
  function ById(s: Instances): (m: map<SagaId, SagaInstance>)
    requires DistinctIds(s)
    ensures forall id :: id in m <==> Find(s, id).Some?
    ensures forall id :: id in m ==> Find(s, id) == Some(m[id])
  {
    map x | x in s && Find(s, x.sagaId) == Some(x) :: x.sagaId := x
  }

  lemma ByIdIsFind(s: Instances, m: map<SagaId, SagaInstance>)
    requires DistinctIds(s)
    requires forall id :: id in m <==> Find(s, id).Some?
    requires forall id :: id in m ==> Find(s, id) == Some(m[id])
    ensures m == ById(s)
  {
  }

  class InMemoryStorageProvider {
    var instances: Instances

    constructor ()
      ensures instances == []
    {
      instances := [];
    }

    method Save(instance: SagaInstance)
      modifies this
      ensures instances == Put(old(instances), instance)
    {
      instances := Put(instances, instance);
    }

    method FindById(id: SagaId) returns (found: Option<SagaInstance>)
      ensures found == Find(instances, id)
    {
      found := Find(instances, id);
    }

    method FindByAssociation(property: string, value: string) returns (matches: Instances)
      ensures matches == Matching(instances, property, value)
    {
      hide Associated;
      matches := [];
      ghost var rest := instances;
      for i := 0 to |instances|
        invariant rest == instances[i..]
        invariant matches + Matching(rest, property, value) == Matching(instances, property, value)
      {
        if Associated(instances[i], property, value) {
          matches := matches + [instances[i]];
        }
        rest := rest[1..];
      }
    }

    method Delete(id: SagaId)
      modifies this
      ensures instances == Remove(old(instances), id)
    {
      instances := Remove(instances, id);
    }

    /** Instances are immutable, so the sequence of references is a full snapshot. */
    method Snapshot() returns (snapshot: Instances)
      ensures snapshot == instances
    {
      snapshot := instances;
    }

    method Restore(snapshot: Instances)
      modifies this
      ensures instances == snapshot
    {
      instances := snapshot;
    }
  }
}
