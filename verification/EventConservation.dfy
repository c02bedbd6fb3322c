/** Where the events recorded by a finished unit of work went, and what makes a unit of work roll back. */
module EventConservation {
  import opened Spi
  import opened InMemoryStorage
  import opened SagaLifecycle
  import opened UnitOfWork
  import opened ClientCode
  import opened UnitGuarantees
  import opened UnitOutcomes

  // ----- splitting the recorded events -----------------------------------------------------------------------

  predicate Increasing(places: seq<nat>) {
    forall i, j :: 0 <= i < j < |places| ==> places[i] < places[j]
  }

  predicate Within(places: seq<nat>, n: nat) {
    forall i :: 0 <= i < |places| ==> places[i] < n
  }

  function At(recorded: seq<Event>, places: seq<nat>): (r: seq<Event>)
    requires Within(places, |recorded|)
  {
    seq(|places|, i requires 0 <= i < |places| => recorded[places[i]])
  }

  /** The places below n that are not in taken, ascending. */
  function Others(n: nat, taken: seq<nat>): (r: seq<nat>)
    ensures Increasing(r) && Within(r, n)
    ensures forall k: nat :: k in r <==> k < n && k !in taken
  {
    if n == 0 then [] else Others(n - 1, taken) + (if n - 1 in taken then [] else [n - 1])
  }

  lemma AtPrefix(recorded: seq<Event>, places: seq<nat>, n: nat)
    requires n <= |recorded| && Within(places, n)
    ensures Within(places, |recorded|) && At(recorded[..n], places) == At(recorded, places)
  {
  }

  lemma AtLast(recorded: seq<Event>, places: seq<nat>, k: nat)
    requires k < |recorded| && Within(places, |recorded|)
    ensures Within(places + [k], |recorded|) && At(recorded, places + [k]) == At(recorded, places) + [recorded[k]]
  {
  }

  /** The undelivered events are the recorded ones at the other places, in recording order. */
  lemma {:induction false} UndeliveredInOrder(recorded: seq<Event>, inProcess: seq<nat>)
    ensures Undelivered(recorded, inProcess) == At(recorded, Others(|recorded|, inProcess))
  {
    hide At, Within, Increasing;
    if recorded == [] {
      NothingAt();
    } else {
      var n := |recorded| - 1;
      UndeliveredInOrder(recorded[..n], inProcess);
      var front := Others(n, inProcess);
      AtPrefix(recorded, front, n);
      if n in inProcess {
        assert Others(n + 1, inProcess) == front + [] == front;
      } else {
        AtLast(recorded, front, n);
        assert Others(n + 1, inProcess) == front + [n];
      }
    }
  }

  lemma NothingAt()
    ensures Within([], 0) && At([], []) == []
  {
  }

  /** Nothing is lost and nothing doubled: the two parts make up the recorded events. */
  lemma {:induction false} Partition(recorded: seq<Event>, inProcess: seq<nat>)
    requires Increasing(inProcess) && Within(inProcess, |recorded|)
    ensures multiset(recorded) == multiset(At(recorded, inProcess)) + multiset(Undelivered(recorded, inProcess))
  {
    if recorded != [] {
      var n, m := |recorded| - 1, |inProcess| - 1;
      var front := recorded[..n];
      assert recorded == front + [recorded[n]];
      if n in inProcess {
        LastPlace(inProcess, n);
        var rest := inProcess[..m];
        Partition(front, rest);
        UndeliveredPrefix(front, inProcess, rest, n);
        AtOneMore(front, recorded[n], rest);
      } else {
        forall i | 0 <= i < |inProcess| ensures inProcess[i] < n {
          assert inProcess[i] in inProcess;
        }
        Partition(front, inProcess);
        assert At(recorded, inProcess) == At(front, inProcess);
      }
    }
  }

  lemma AtOneMore(recorded: seq<Event>, last: Event, places: seq<nat>)
    requires Within(places, |recorded|)
    ensures Within(places + [|recorded|], |recorded + [last]|)
    ensures At(recorded + [last], places + [|recorded|]) == At(recorded, places) + [last]
  {
  }

  lemma LastPlace(places: seq<nat>, n: nat)
    requires Increasing(places) && Within(places, n + 1) && n in places
    ensures places != [] && places[|places| - 1] == n
    ensures Increasing(places[..|places| - 1]) && Within(places[..|places| - 1], n)
    ensures places == places[..|places| - 1] + [n]
  {
    var i :| 0 <= i < |places| && places[i] == n;
  }

  lemma {:induction false} UndeliveredPrefix(recorded: seq<Event>, places: seq<nat>, rest: seq<nat>, n: nat)
    requires places == rest + [n] && |recorded| <= n
    ensures Undelivered(recorded, places) == Undelivered(recorded, rest)
  {
    if recorded != [] {
      UndeliveredPrefix(recorded[..|recorded| - 1], places, rest, n);
    }
  }

  // ----- conservation ----------------------------------------------------------------------------------------

  /** The places of the recorded events that trigger a further step of this saga, ascending. */
  function ReactingPlaces(env: Env, recorded: seq<Event>, n: nat): (r: seq<nat>)
    requires n <= |recorded|
    ensures Increasing(r) && Within(r, n)
    ensures forall k: nat :: k in r <==> k < n && Reacts(env, recorded[k])
  {
    if n == 0 then []
    else ReactingPlaces(env, recorded, n - 1) + (if Reacts(env, recorded[n - 1]) then [n - 1] else [])
  }

  /**
   * In-process delivery is first in, first out, of the reacting events only; every other recorded event is
   * dispatched after commit, or discarded by rollback, in recording order; a commit without an end step has
   * delivered every reacting event.
   */
  predicate Conserved<W>(t: Trigger, r: Result<W>)
    requires r.Result?
  {
    var reacting := ReactingPlaces(EnvOf(t), r.recorded, |r.recorded|);
    && r.inProcess <= reacting
    && (r.committed && !IsEndStepRun(t.model, r.stepsRun) ==> r.inProcess == reacting)
    && Within(r.inProcess, |r.recorded|)
    && (if r.committed then r.dispatched else r.discarded) == At(r.recorded, Others(|r.recorded|, r.inProcess))
    && (if r.committed then r.discarded else r.dispatched) == []
    && multiset(r.recorded) == multiset(At(r.recorded, r.inProcess)) + multiset(r.dispatched) + multiset(r.discarded)
  }

  predicate IsEndStepRun(model: SagaModel, stepsRun: seq<StepName>) {
    stepsRun != [] && IsEndStep(model, stepsRun[|stepsRun| - 1])
  }

  function PlacesOf(pending: seq<Pending>): seq<nat>
    requires forall i :: 0 <= i < |pending| ==> pending[i].recorded.Some?
  {
    seq(|pending|, i requires 0 <= i < |pending| => pending[i].recorded.value)
  }

  /** The queue's view of the reacting events and the places are the same. */
  lemma {:induction false} PendingPlaces(env: Env, recorded: seq<Event>, n: nat)
    requires n <= |recorded|
    ensures var p := PendingFrom(env, recorded[..n], 0);
      && (forall i :: 0 <= i < |p| ==> p[i].recorded.Some?)
      && PlacesOf(p) == ReactingPlaces(env, recorded, n)
  {
    hide Reacts;
    if n > 0 {
      PendingPlaces(env, recorded, n - 1);
      var r := recorded[..n];
      assert r[..n - 1] == recorded[..n - 1];
      PendingFromPrefix(env, recorded[..n - 1], r, 0);
      assert PendingFrom(env, r, n) == [];
    }
  }

  lemma QueuePlaces<W>(env: Env, trigger: Pending, u: Unit<W>)
    requires QueueOk(env, trigger, u)
    ensures var reacting := ReactingPlaces(env, u.recorded, |u.recorded|);
      && u.inProcess <= reacting
      && (u.queue == [] ==> u.inProcess == reacting)
      && Within(u.inProcess, |u.recorded|) && Increasing(u.inProcess)
  {
    hide PendingFrom;
    PendingPlaces(env, u.recorded, |u.recorded|);
    assert u.recorded[..|u.recorded|] == u.recorded;
    var reacting := ReactingPlaces(env, u.recorded, |u.recorded|);
    assert |u.inProcess| <= |reacting|;
    forall i | 0 <= i < |u.inProcess| ensures u.inProcess[i] == reacting[i] {
    }
    assert u.inProcess == reacting[..|u.inProcess|];
  }

  lemma RollBackConserves<W>(t: Trigger, pre: Stores<W>, u: Unit<W>, cause: Cause)
    requires QueueOk(EnvOf(t), TriggerEntry(t), u)
    ensures RollBack(t, pre, u, cause).Result? && Conserved(t, RollBack(t, pre, u, cause))
  {
    hide QueueOk, ReactingPlaces, Others, Undelivered, IsEndStepRun, EnvOf, Find, Put;
    QueuePlaces(EnvOf(t), TriggerEntry(t), u);
    UndeliveredInOrder(u.recorded, u.inProcess);
    Partition(u.recorded, u.inProcess);
  }

  lemma CommitConserves<W>(t: Trigger, pre: Stores<W>, u: Unit<W>)
    requires QueueOk(EnvOf(t), TriggerEntry(t), u) && (u.queue == [] || IsEndStepRun(t.model, u.stepsRun))
    ensures Commit(t, u).Result? && Conserved(t, Commit(t, u))
  {
    hide QueueOk, ReactingPlaces, Others, Undelivered, IsEndStepRun, EnvOf;
    QueuePlaces(EnvOf(t), TriggerEntry(t), u);
    UndeliveredInOrder(u.recorded, u.inProcess);
    Partition(u.recorded, u.inProcess);
  }

  lemma EndedRun<W>(t: Trigger, pre: Stores<W>, u: Unit<W>)
    requires Looping(t, pre, u)
    ensures u.ended ==> IsEndStepRun(t.model, u.stepsRun)
  {
  }

  /** In every finished unit of work each recorded event is delivered in-process, dispatched or discarded, once. */
  lemma EventsConserved<W>(t: Trigger, oracle: Oracle<W>, pre: Stores<W>, fuel: nat)
    requires ValidTrigger(t, pre.storage)
    ensures RunUnit(t, oracle, pre, fuel).Result? ==> Conserved(t, RunUnit(t, oracle, pre, fuel))
  {
    hide StartRejected, RollBack, Commit, Drain, LoopOk, Settle, EnvOf, ValidTrigger, QueueOk, Conserved,
         CommittedStores;
    var begun := Begun(t, pre);
    BegunLooping(t, pre);
    LoopingContexts(t, pre, begun);
    RejectionConserves(t, pre);
    if !StartRejected(t, pre.storage) {
      if t.construction.Some? {
        RollBackConserves(t, pre, begun, t.construction.value);
      } else {
        DrainOk(t, oracle, pre, begun, fuel);
        var ran := Drain(EnvOf(t), oracle, begun, fuel);
        if ran.Ran? && ran.thrown.None? {
          EndedRun(t, pre, ran.unit);
          LoopingContexts(t, pre, ran.unit);
          SettledInstance(t, pre, ran.unit);
          var settled := Settle(EnvOf(t), ran.unit);
          SameQueue(EnvOf(t), TriggerEntry(t), ran.unit, settled.unit);
          CommitConserves(t, pre, settled.unit);
        } else if ran.Ran? {
          RollBackConserves(t, pre, ran.unit, ran.thrown.value);
        }
      }
    }
  }

  lemma RejectionConserves<W>(t: Trigger, pre: Stores<W>)
    ensures Conserved(t, Rejection(pre))
  {
    assert Others(0, []) == [];
  }

  // ----- when a unit of work commits -------------------------------------------------------------------------

  /**
   * The step about to run returns normally, and nothing it reaches fails in a way that marks, caught or not: no send,
   * and no record of an event whose identifier cannot be read.
   */
  predicate CleanStep<W>(env: Env, oracle: Oracle<W>, u: Unit<W>)
    requires u.queue != []
  {
    var code := oracle(env, Observed(Poll(u)), u.queue[0].event);
    !RunCode(env, code, Poll(u)).finish.Throws? && !FailureInCode(env, code, Poll(u), MarkingFailure)
  }

  /** Every step the unit of work comes to run is clean, and it is over within fuel steps. */
  predicate CleanRun<W>(env: Env, oracle: Oracle<W>, u: Unit<W>, fuel: nat)
    decreases fuel
  {
    u.queue == [] || u.ended ||
    (fuel > 0 && CleanStep(env, oracle, u) && CleanRun(env, oracle, RunStep(env, oracle, u).unit, fuel - 1))
  }

  lemma CleanStepReturns<W>(t: Trigger, oracle: Oracle<W>, pre: Stores<W>, u: Unit<W>)
    requires Looping(t, pre, u) && u.queue != [] && !u.ended && t.model.StepNames() <= BaseInstance(t).steps.Keys
    ensures RunStep(EnvOf(t), oracle, u).thrown.None? <==> CleanStep(EnvOf(t), oracle, u)
  {
    hide RunCode, FailureInCode, Extends, QueueOk, CompleteStep, Progressed, ContextsOk, ValidModel, SameExcept,
         StepsOk;
    var env, polled := EnvOf(t), Poll(u);
    var code := oracle(env, Observed(polled), u.queue[0].event);
    CodeMarks(env, code, polled);
    CodeExtends(env, code, polled);
    var ran := RunCode(env, code, polled).unit;
    ExtendsFrame(env, polled, ran);
    NextStepOf(env, TriggerEntry(t), u);
    CompletionAccepted(t, u.queue[0].step, u, ran);
  }

  /** The lifecycle accepts the completion of a step of the model on an active instance. */
  lemma CompletionAccepted<W>(t: Trigger, step: Step, u: Unit<W>, ran: Unit<W>)
    requires Find(u.storage, EnvOf(t).sagaId).Some? && ran.storage == u.storage && ran.currentStep == step.name
    requires Active(BaseInstance(t))
    requires Progressed(BaseInstance(t), Find(u.storage, EnvOf(t).sagaId).value, u.stepsRun, false)
    requires StepOf(t.model, step) && t.model.StepNames() <= BaseInstance(t).steps.Keys
    ensures CompleteStep(EnvOf(t), step, ran).thrown.None?
  {
    hide BaseInstance, Put;
    var current := Find(u.storage, EnvOf(t).sagaId).value;
    StillActive(BaseInstance(t), current, u.stepsRun);
    assert t.model.steps[step.eventClass].name in t.model.StepNames();
    FindPut(u.storage, WithStep(current, step.name, ran.touched, t.now), EnvOf(t).sagaId);
  }

  lemma {:induction false} CleanRunDrains<W>(t: Trigger, oracle: Oracle<W>, pre: Stores<W>, u: Unit<W>, fuel: nat)
    requires Looping(t, pre, u) && t.model.StepNames() <= BaseInstance(t).steps.Keys
    ensures var ran := Drain(EnvOf(t), oracle, u, fuel);
      CleanRun(EnvOf(t), oracle, u, fuel) <==> ran.Ran? && ran.thrown.None?
    decreases fuel
  {
    hide LoopOk, ThrownOk, RunStep, Opened, BaseInstance, EnvOf, CleanStep;
    if u.queue != [] && !u.ended && fuel > 0 {
      StepRanOk(EnvOf(t), oracle, Opened(t, pre.storage), pre.contexts, BaseInstance(t), TriggerEntry(t), u);
      CleanStepReturns(t, oracle, pre, u);
      var after := RunStep(EnvOf(t), oracle, u);
      if after.thrown.None? {
        CleanRunDrains(t, oracle, pre, after.unit, fuel - 1);
      }
    }
  }

  /**
   * A unit of work commits iff its start is not rejected, its saga can be constructed, and every step it comes to
   * run returns without a send, or a record of an event with an unreadable identifier, failing underneath it, whatever
   * the client code caught on the way.
   */
  lemma CommitsIffClean<W>(t: Trigger, oracle: Oracle<W>, pre: Stores<W>, fuel: nat)
    requires ValidTrigger(t, pre.storage) && t.model.StepNames() <= BaseInstance(t).steps.Keys
    ensures var r := RunUnit(t, oracle, pre, fuel);
      r.Result? && r.committed <==>
        !StartRejected(t, pre.storage) && t.construction.None? && CleanRun(EnvOf(t), oracle, Begun(t, pre), fuel)
  {
    hide StartRejected, RollBack, Commit, Drain, LoopOk, Settle, EnvOf, BaseInstance, ValidTrigger, CommittedStores,
         RolledBackStores, CleanRun;
    var begun := Begun(t, pre);
    BegunLooping(t, pre);
    LoopingContexts(t, pre, begun);
    if !StartRejected(t, pre.storage) && t.construction.None? {
      DrainOk(t, oracle, pre, begun, fuel);
      DrainCurrent(t, oracle, begun, fuel);
      CleanRunDrains(t, oracle, pre, begun, fuel);
      var ran := Drain(EnvOf(t), oracle, begun, fuel);
      if ran.Ran? && ran.thrown.None? {
        SettledInstance(t, pre, ran.unit);
      } else if ran.Ran? {
        RolledBack(t, pre, ran.unit, ran.thrown.value);
      }
    } else if !StartRejected(t, pre.storage) {
      RolledBack(t, pre, begun, t.construction.value);
    }
  }

  /** The run reaches a step with a failure of the kind sought. */
  predicate FailureInRun<W>(env: Env, oracle: Oracle<W>, u: Unit<W>, fuel: nat, sought: Sought)
    decreases fuel
  {
    u.queue != [] && !u.ended && fuel > 0 &&
    (FailureInCode(env, oracle(env, Observed(Poll(u)), u.queue[0].event), Poll(u), sought)
     || (RunStep(env, oracle, u).thrown.None? &&
           FailureInRun(env, oracle, RunStep(env, oracle, u).unit, fuel - 1, sought)))
  }

  lemma {:induction false} FailureThrows<W>(t: Trigger, oracle: Oracle<W>, pre: Stores<W>, u: Unit<W>, fuel: nat)
    requires Looping(t, pre, u) && FailureInRun(EnvOf(t), oracle, u, fuel, MarkingFailure)
    ensures !(Drain(EnvOf(t), oracle, u, fuel).Ran? && Drain(EnvOf(t), oracle, u, fuel).thrown.None?)
    decreases fuel
  {
    hide LoopOk, ThrownOk, Opened, BaseInstance, EnvOf, RunCode, FailureInCode, CompleteStep;
    CodeMarks(EnvOf(t), oracle(EnvOf(t), Observed(Poll(u)), u.queue[0].event), Poll(u));
    var after := RunStep(EnvOf(t), oracle, u);
    if after.thrown.None? {
      StepRanOk(EnvOf(t), oracle, Opened(t, pre.storage), pre.contexts, BaseInstance(t), TriggerEntry(t), u);
      FailureThrows(t, oracle, pre, after.unit, fuel - 1);
    }
  }

  /**
   * Rollback-only is inescapable: once a send failed, or an event was recorded whose identifier cannot be read, nothing
   * is committed, nothing dispatched and no step recorded completed.
   */
  lemma RollbackOnlyIsInescapable<W>(t: Trigger, oracle: Oracle<W>, pre: Stores<W>, fuel: nat)
    requires ValidTrigger(t, pre.storage) && !StartRejected(t, pre.storage) && t.construction.None?
    requires FailureInRun(EnvOf(t), oracle, Begun(t, pre), fuel, MarkingFailure)
    ensures var r := RunUnit(t, oracle, pre, fuel);
      r.Result? ==>
        && !r.committed && r.dispatched == [] && r.stores.world == pre.world
        && Find(r.stores.storage, BaseInstance(t).sagaId).Some?
        && Find(r.stores.storage, BaseInstance(t).sagaId).value.steps == BaseInstance(t).steps
        && Find(r.stores.storage, BaseInstance(t).sagaId).value.status == SagaStatus.Failed
  {
    hide StartRejected, Commit, Drain, LoopOk, Settle, EnvOf, BaseInstance, ValidTrigger, CommittedStores,
         FailureInRun, SameExcept, PutAll;
    Atomicity(t, oracle, pre, fuel);
    BegunLooping(t, pre);
    FailureThrows(t, oracle, pre, Begun(t, pre), fuel);
  }

  // ----- what a step is recorded with ------------------------------------------------------------------------

  function References(events: seq<Event>): seq<AggregateReference>
    requires forall i :: 0 <= i < |events| ==> Recordable(events[i])
  {
    seq(|events|, i requires 0 <= i < |events| => Reference(events[i]))
  }

  /** A step that completes is recorded with the aggregates of exactly the events recorded while it ran. */
  lemma StepTouches<W>(env: Env, oracle: Oracle<W>, u: Unit<W>)
    requires u.queue != [] && RunStep(env, oracle, u).thrown.None? && Find(u.storage, env.sagaId).Some?
    ensures var after, name := RunStep(env, oracle, u).unit, u.queue[0].step.name;
      && u.recorded <= after.recorded
      && (forall i :: |u.recorded| <= i < |after.recorded| ==> Recordable(after.recorded[i]))
      && Find(after.storage, env.sagaId).Some?
      && name in Find(after.storage, env.sagaId).value.steps
      && Find(after.storage, env.sagaId).value.steps[name] == CompletedStep(References(after.recorded[|u.recorded|..]))
  {
    hide RunCode, PutAll, PendingFrom, CompleteStep, Deduplicated, Recordable, Reference;
    var polled := Poll(u);
    var code := oracle(env, Observed(polled), u.queue[0].event);
    CodeExtends(env, code, polled);
    var ran := RunCode(env, code, polled).unit;
    CompleteStepFrame(env, u.queue[0].step, ran);
    TouchedAreReferences(env, polled, ran);
    RecordedWith(env, u.queue[0].step, ran);
  }

  lemma TouchedAreReferences<W>(env: Env, polled: Unit<W>, ran: Unit<W>)
    requires Extends(env, polled, ran) && polled.touched == []
    ensures polled.recorded <= ran.recorded
    ensures forall i :: |polled.recorded| <= i < |ran.recorded| ==> Recordable(ran.recorded[i])
    ensures ran.touched == References(ran.recorded[|polled.recorded|..])
  {
    hide PutAll, PendingFrom, Recordable, Reference;
    var n, tail := |polled.recorded|, ran.recorded[|polled.recorded|..];
    forall i | 0 <= i < |tail| ensures Recordable(tail[i]) && ran.touched[i] == Reference(tail[i]) {
      assert tail[i] == ran.recorded[n + i];
      assert ran.touched[|polled.touched| + (n + i - n)] == Reference(ran.recorded[n + i]);
    }
  }

  lemma RecordedWith<W>(env: Env, step: Step, ran: Unit<W>)
    requires CompleteStep(env, step, ran).thrown.None? && Find(ran.storage, env.sagaId).Some?
    ensures var found := Find(CompleteStep(env, step, ran).unit.storage, env.sagaId);
      found.Some? && ran.currentStep in found.value.steps &&
          found.value.steps[ran.currentStep] == CompletedStep(ran.touched)
  {
    hide Put, Deduplicated;
    var current := Find(ran.storage, env.sagaId).value;
    var recorded := WithStep(current, ran.currentStep, ran.touched, env.now);
    FindPut(ran.storage, recorded, env.sagaId);
    FindPut(Put(ran.storage, recorded), CompletedAt(recorded, ran.currentStep, env.now), env.sagaId);
  }
}
