/** The storage-agnostic vocabulary: the immutable records a saga instance is made of. */
module Spi {
  import opened JsonCodec

  datatype Option<+T> = None | Some(value: T)

  type SagaId = string
  type StepName = string

  datatype SagaStatus = Created | Running | Compensating | Completed | Failed
  datatype StepStatus = NotRun | Completed

  predicate Terminal(status: SagaStatus) {
    status == SagaStatus.Completed || status == SagaStatus.Failed
  }

  datatype AggregateReference = AggregateReference(aggregateType: string, aggregateId: string)

  datatype SagaFailure = SagaFailure(stepName: StepName, causeType: string, message: string, failedAt: int)

  predicate NoDuplicates<T(==)>(s: seq<T>) {
    forall i, j :: 0 <= i < j < |s| ==> s[i] != s[j]
  }

  /** The position at which x first occurs in s. */
  function FirstIndex<T(==)>(s: seq<T>, x: T): (i: nat)
    requires x in s
    ensures i < |s| && s[i] == x && x !in s[..i]
  {
    if s[0] == x then 0 else 1 + FirstIndex(s[1..], x)
  }

  /** What a LinkedHashSet keeps of a list: each element once, where it first occurred. */
  function Deduplicated<T(==, !new)>(s: seq<T>): (d: seq<T>)
    ensures NoDuplicates(d)
    ensures forall x :: x in d <==> x in s
  {
    if s == [] then []
    else
      var d := Deduplicated(s[..|s| - 1]);
      var x := s[|s| - 1];
      assert s == s[..|s| - 1] + [x];
      if x in d then d else d + [x]
  }

  lemma {:induction false} FirstIndexOfPrefix<T>(s: seq<T>, t: seq<T>, x: T)
    requires x in s
    ensures FirstIndex(s + t, x) == FirstIndex(s, x)
  {
    if s[0] != x {
      assert (s + t)[1..] == s[1..] + t;
      FirstIndexOfPrefix(s[1..], t, x);
    }
  }

  /** Deduplication keeps the recording order: elements appear in the order of their first occurrence. */
  lemma {:induction false} DeduplicatedKeepsOrder<T(!new)>(s: seq<T>)
    ensures forall i, j :: 0 <= i < j < |Deduplicated(s)| ==>
              FirstIndex(s, Deduplicated(s)[i]) < FirstIndex(s, Deduplicated(s)[j])
  {
    if s != [] {
      var front, x := s[..|s| - 1], s[|s| - 1];
      assert s == front + [x];
      DeduplicatedKeepsOrder(front);
      var d := Deduplicated(front);
      forall y | y in d ensures FirstIndex(s, y) == FirstIndex(front, y) {
        FirstIndexOfPrefix(front, [x], y);
      }
      if x !in d {
        assert x !in front;
        assert FirstIndex(s, x) == |front|;
      }
    }
  }

  /** Deduplicating a list without duplicates changes nothing; hence it is idempotent. */
  lemma {:induction false} DeduplicatedIdentity<T(!new)>(s: seq<T>)
    ensures NoDuplicates(s) <==> Deduplicated(s) == s
  {
    if s != [] {
      var front, x := s[..|s| - 1], s[|s| - 1];
      assert s == front + [x];
      DeduplicatedIdentity(front);
      if NoDuplicates(s) {
        assert x !in front;
      } else if NoDuplicates(front) {
        assert x in front;
      }
    }
  }

  lemma {:induction false} OccursOnce<T>(s: seq<T>, x: T)
    requires NoDuplicates(s)
    ensures multiset(s)[x] == if x in s then 1 else 0
  {
    if s != [] {
      OccursOnce(s[1..], x);
      assert s == [s[0]] + s[1..];
      assert s[0] !in s[1..];
    }
  }

  /** Without duplicates, the same elements are the same multiset. */
  lemma SameElements<T(!new)>(a: seq<T>, b: seq<T>)
    requires NoDuplicates(a) && NoDuplicates(b) && forall x :: x in a <==> x in b
    ensures multiset(a) == multiset(b)
  {
    forall x ensures multiset(a)[x] == multiset(b)[x] {
      OccursOnce(a, x);
      OccursOnce(b, x);
    }
  }

  datatype StepRecord = StepRecord(status: StepStatus, touched: seq<AggregateReference>) {
    predicate Valid() {
      NoDuplicates(touched) && (status.NotRun? ==> touched == [])
    }

    predicate Done() {
      status.Completed?
    }
  }

  const NOT_RUN := StepRecord(StepStatus.NotRun, [])

  /** The StepRecord constructor: None where it throws. */
  function NewStepRecord(status: StepStatus, touched: seq<AggregateReference>): (r: Option<StepRecord>)
    ensures r.None? <==> status.NotRun? && touched != []
    ensures r.Some? ==> r.value.Valid() && r.value.status == status
    ensures r.Some? ==> forall a :: a in r.value.touched <==> a in touched
  {
    if status.NotRun? && touched != [] then None
    else Some(StepRecord(status, Deduplicated(touched)))
  }

  function CompletedStep(touched: seq<AggregateReference>): (r: StepRecord)
    ensures r.Valid() && r.Done()
  {
    StepRecord(StepStatus.Completed, Deduplicated(touched))
  }

  type Associations = map<string, string>

  /** One snapshot of a saga instance. */
  datatype SagaInstance = SagaInstance(
    sagaId: SagaId,
    sagaType: string,
    state: Value,
    associations: Associations,
    status: SagaStatus,
    createdAt: int,
    lastModifiedAt: int,
    steps: map<StepName, StepRecord>,
    outcome: Option<StepName>,
    failure: Option<SagaFailure>)
  {
    /** What the record's constructor enforces. */
    predicate Valid() {
      && (status == SagaStatus.Completed <==> outcome.Some?)
      && (status == SagaStatus.Failed <==> failure.Some?)
      && forall n :: n in steps ==> steps[n].Valid()
    }

    predicate HasCompleted(step: StepName) {
      step in steps && steps[step].Done()
    }
  }

  predicate Associated(instance: SagaInstance, property: string, value: string) {
    property in instance.associations && instance.associations[property] == value
  }

  datatype EntryKind = Created | StepCompleted | Completed | Failed

  datatype LifecycleEntry = LifecycleEntry(
    sagaId: SagaId,
    sequenceNumber: int,
    kind: EntryKind,
    stepName: Option<StepName>,
    touched: seq<AggregateReference>,
    outcomeStep: Option<StepName>,
    failure: Option<SagaFailure>,
    occurredAt: int)
  {
    /** What the record's constructor enforces. */
    predicate Valid() {
      && sequenceNumber >= 0
      && (stepName.Some? <==> kind == EntryKind.StepCompleted)
      && (outcomeStep.Some? <==> kind == EntryKind.Completed)
      && (failure.Some? <==> kind == EntryKind.Failed)
      && (kind != EntryKind.StepCompleted ==> touched == [])
    }
  }
}
