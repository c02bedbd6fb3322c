/**
 * Failing records that client code catches: which of them the unit of work rolls back for all the same, and exactly
 * when every failure does.
 */
module CaughtFailures {
  import opened Spi
  import opened InMemoryStorage
  import opened SagaLifecycle
  import opened UnitOfWork
  import opened ClientCode
  import opened UnitGuarantees
  import opened UnitOutcomes
  import opened EventConservation

  /** Recording the event fails without a mark: nothing is noted, or the event is recorded and its accessor throws. */
  predicate FailsUnmarked(env: Env, event: Event) {
    !event.annotated || (event.identifier.Some? && AccessorThrows(env, event))
  }

  // ----- the events client code records ----------------------------------------------------------------------

  /** Every event the code records, or would if it got that far, at any depth, is one of these. */
  ghost predicate CodeRecords<W>(code: Code<W>, events: set<Event>)
    decreases code
  {
    forall effect <- code.effects :: EffectRecords(effect, events)
  }

  ghost predicate EffectRecords<W>(effect: Effect<W>, events: set<Event>)
    decreases effect
  {
    match effect
    case Record(event, _) => event in events
    case Send(_, call, _) => CallRecords(call, events)
    case _ => true
  }

  ghost predicate CallRecords<W>(call: Call<W>, events: set<Event>)
    decreases call
  {
    CodeRecords(call.load, events) && CodeRecords(call.handler, events) && CodeRecords(call.save, events)
  }

  predicate AllMark(env: Env, events: set<Event>) {
    forall event <- events :: !FailsUnmarked(env, event)
  }

  lemma {:induction false} EffectsAllMark<W>(env: Env, effects: seq<Effect<W>>, u: Unit<W>, events: set<Event>)
    requires AllMark(env, events) && forall effect <- effects :: EffectRecords(effect, events)
    ensures FailureInEffects(env, effects, u, AnyFailure) <==> FailureInEffects(env, effects, u, MarkingFailure)
    decreases effects
  {
    hide AllMark, EffectRecords, FailureIn;
    if effects != [] {
      EffectAllMarks(env, effects[0], u, events);
      EffectsAllMark(env, effects[1..], RunEffect(env, effects[0], u).unit, events);
    }
  }

  lemma {:induction false} EffectAllMarks<W>(env: Env, effect: Effect<W>, u: Unit<W>, events: set<Event>)
    requires AllMark(env, events) && EffectRecords(effect, events)
    ensures FailureIn(env, effect, u, AnyFailure) <==> FailureIn(env, effect, u, MarkingFailure)
    decreases effect
  {
    hide SendCommand, FailureInCall, RecordThroughFacade, CallRecords;
    match effect
    case Record(event, _) =>
      RecordMarksIff(env, event, u);
      assert !FailsUnmarked(env, event);
    case Send(command, call, _) =>
      SendMarks(env, command, call, u);
      if SendCommand(env, command, call, u).thrown.None? {
        CallAllMarks(env, env.routes[command.value.className], call, u, events);
      }
    case _ =>
  }

  lemma {:induction false} CallAllMarks<W>(env: Env, route: Route, call: Call<W>, u: Unit<W>, events: set<Event>)
    requires AllMark(env, events) && CallRecords(call, events)
    ensures FailureInCall(env, route, call, u, AnyFailure) <==> FailureInCall(env, route, call, u, MarkingFailure)
    decreases call
  {
    hide AllMark, RunCode, CodeRecords, FailureInCode;
    match route
    case ServiceRoute => CodeAllMarks(env, call.handler, u, events);
    case InstanceRoute =>
      var loaded := RunCode(env, call.load, u).unit;
      CodeAllMarks(env, call.load, u, events);
      CodeAllMarks(env, call.handler, loaded, events);
      CodeAllMarks(env, call.save, RunCode(env, call.handler, loaded).unit, events);
    case CreationRoute =>
      CodeAllMarks(env, call.handler, u, events);
      CodeAllMarks(env, call.save, RunCode(env, call.handler, u).unit, events);
  }

  lemma {:induction false} CodeAllMarks<W>(env: Env, code: Code<W>, u: Unit<W>, events: set<Event>)
    requires AllMark(env, events) && CodeRecords(code, events)
    ensures FailureInCode(env, code, u, AnyFailure) <==> FailureInCode(env, code, u, MarkingFailure)
    decreases code
  {
    hide AllMark, EffectRecords;
    EffectsAllMark(env, code.effects, u, events);
  }

  // ----- one piece of client code ----------------------------------------------------------------------------

  /** The unit of work is rollback-only iff some send or record failed. */
  predicate MarksOnEveryFailure<W>(env: Env, code: Code<W>, u: Unit<W>) {
    RunCode(env, code, u).unit.rollbackOnly.Some? <==> u.rollbackOnly.Some? || FailureInCode(env, code, u, AnyFailure)
  }

  /** Records the event and catches what that throws. */
  function RecordsAndCatches<W>(event: Event): Code<W> {
    Code([Effect<W>.Record(event, true)], Returns)
  }

  lemma CatchesTheRecord<W>(env: Env, event: Event, u: Unit<W>)
    ensures var code := RecordsAndCatches<W>(event);
      && RunCode(env, code, u) == Ending(RecordThroughFacade(env, event, u).unit, Returns)
      && (FailureInCode(env, code, u, AnyFailure) <==> RecordThroughFacade(env, event, u).thrown.Some?)
      && (FailureInCode(env, code, u, MarkingFailure) <==> MarkingEvent(event))
      && CodeRecords(code, {event})
  {
    hide RecordThroughFacade;
    var record := Effect<W>.Record(event, true);
    var first := RunEffect(env, record, u);
    assert [record][1..] == [] && first == After(RecordThroughFacade(env, event, u).unit, None);
    assert RunEffects(env, [], first.unit) == After(first.unit, None);
    OneRecordFails(env, event, u, AnyFailure);
    OneRecordFails(env, event, u, MarkingFailure);
  }

  lemma OneRecordFails<W>(env: Env, event: Event, u: Unit<W>, sought: Sought)
    ensures var code := RecordsAndCatches<W>(event);
      FailureInCode(env, code, u, sought) <==>
        if sought.AnyFailure? then RecordThroughFacade(env, event, u).thrown.Some? else MarkingEvent(event)
  {
    hide RecordThroughFacade;
    var record := Effect<W>.Record(event, true);
    assert [record][1..] == [];
    assert FailureInEffects(env, [record], u, sought) <==> FailureIn(env, record, u, sought);
  }

  /**
   * For all client code that records only these events, every failure of a send or record leaves the unit of work
   * rollback-only, caught or not, iff each of the events is annotated and no accessor throws that decides whether it
   * is to be delivered in-process, unless its identifier cannot be read in the first place.
   */
  lemma EveryFailureMarksIff<W(!new)>(env: Env, events: set<Event>, u: Unit<W>)
    requires u.rollbackOnly.None?
    ensures (forall code: Code<W> | CodeRecords(code, events) :: MarksOnEveryFailure(env, code, u)) <==>
              AllMark(env, events)
  {
    hide RunCode, FailureInCode, CodeRecords;
    if AllMark(env, events) {
      forall code: Code<W> | CodeRecords(code, events) ensures MarksOnEveryFailure(env, code, u) {
        CodeAllMarks(env, code, u, events);
        CodeMarks(env, code, u);
      }
    } else {
      var event :| event in events && FailsUnmarked(env, event);
      CatchesTheRecord(env, event, u);
      RecordMarksIff(env, event, u);
      OneOf<W>(event, events);
      assert !MarksOnEveryFailure(env, RecordsAndCatches<W>(event), u);
    }
  }

  lemma OneOf<W>(event: Event, events: set<Event>)
    requires event in events
    ensures CodeRecords(RecordsAndCatches<W>(event), events)
  {
  }

  // ----- a unit of work --------------------------------------------------------------------------------------

  /** Whatever the client code sees, it records only these events. */
  ghost predicate OracleRecords<W(!new)>(oracle: Oracle<W>, events: set<Event>) {
    forall env, u, event :: CodeRecords(oracle(env, u, event), events)
  }

  lemma {:induction false} RunAllMarks<W(!new)>(env: Env, oracle: Oracle<W>, u: Unit<W>, fuel: nat, events: set<Event>)
    requires AllMark(env, events) && OracleRecords(oracle, events)
    ensures FailureInRun(env, oracle, u, fuel, AnyFailure) <==> FailureInRun(env, oracle, u, fuel, MarkingFailure)
    decreases fuel
  {
    hide AllMark, CodeRecords, RunStep, FailureInCode;
    if u.queue != [] && !u.ended && fuel > 0 {
      CodeAllMarks(env, oracle(env, Observed(Poll(u)), u.queue[0].event), Poll(u), events);
      if RunStep(env, oracle, u).thrown.None? {
        RunAllMarks(env, oracle, RunStep(env, oracle, u).unit, fuel - 1, events);
      }
    }
  }

  /** With such client code, a run with a failing send or record is not committed. */
  predicate FailureRollsBack<W>(t: Trigger, oracle: Oracle<W>, pre: Stores<W>, fuel: nat) {
    var r := RunUnit(t, oracle, pre, fuel);
    FailureInRun(EnvOf(t), oracle, Begun(t, pre), fuel, AnyFailure) ==> !(r.Result? && r.committed)
  }

  function Catching<W>(event: Event): Oracle<W> {
    (env: Env, u: Unit<W>, triggering: Event) => RecordsAndCatches(event)
  }

  /**
   * For all client code that records only these events: no unit of work in which a send or record failed commits,
   * whatever was caught, iff each of them is annotated and no accessor throws that decides whether it is to be
   * delivered in-process, unless its identifier cannot be read in the first place.
   */
  lemma EveryFailureRollsBackIff<W(!new)>(t: Trigger, pre: Stores<W>, fuel: nat, events: set<Event>)
    requires ValidTrigger(t, pre.storage) && t.model.StepNames() <= BaseInstance(t).steps.Keys
    requires !StartRejected(t, pre.storage) && t.construction.None? && fuel > 0
    ensures (forall oracle: Oracle<W> | OracleRecords(oracle, events) :: FailureRollsBack(t, oracle, pre, fuel)) <==>
              AllMark(EnvOf(t), events)
  {
    hide StartRejected, ValidTrigger, BaseInstance, EnvOf, FailureRollsBack, OracleRecords;
    if AllMark(EnvOf(t), events) {
      forall oracle: Oracle<W> | OracleRecords(oracle, events) ensures FailureRollsBack(t, oracle, pre, fuel) {
        MarkedRollsBack(t, oracle, pre, fuel, events);
      }
    } else {
      var event :| event in events && FailsUnmarked(EnvOf(t), event);
      CaughtFailureCommits(t, pre, fuel, event);
      CatchingRecords<W>(event, events);
      assert !FailureRollsBack(t, Catching<W>(event), pre, fuel) by {
        NotRolledBack(t, Catching<W>(event), pre, fuel);
      }
    }
  }

  lemma NotRolledBack<W>(t: Trigger, oracle: Oracle<W>, pre: Stores<W>, fuel: nat)
    requires FailureInRun(EnvOf(t), oracle, Begun(t, pre), fuel, AnyFailure)
    requires RunUnit(t, oracle, pre, fuel).Result? && RunUnit(t, oracle, pre, fuel).committed
    ensures !FailureRollsBack(t, oracle, pre, fuel)
  {
    hide RunUnit, FailureInRun;
  }

  lemma CatchingRecords<W(!new)>(event: Event, events: set<Event>)
    requires event in events
    ensures OracleRecords(Catching<W>(event), events)
  {
    hide CodeRecords;
    OneOf<W>(event, events);
  }

  lemma MarkedRollsBack<W(!new)>(t: Trigger, oracle: Oracle<W>, pre: Stores<W>, fuel: nat, events: set<Event>)
    requires ValidTrigger(t, pre.storage) && !StartRejected(t, pre.storage) && t.construction.None?
    requires AllMark(EnvOf(t), events) && OracleRecords(oracle, events)
    ensures FailureRollsBack(t, oracle, pre, fuel)
  {
    hide StartRejected, ValidTrigger, BaseInstance, EnvOf, AllMark, OracleRecords, RunUnit, FailureInRun;
    RunAllMarks(EnvOf(t), oracle, Begun(t, pre), fuel, events);
    if FailureInRun(EnvOf(t), oracle, Begun(t, pre), fuel, MarkingFailure) {
      RollbackOnlyIsInescapable(t, oracle, pre, fuel);
    }
  }

  /** The first step, with client code that does nothing but record the event and catch what that throws. */
  lemma CaughtStep<W>(t: Trigger, pre: Stores<W>, event: Event)
    requires ValidTrigger(t, pre.storage) && t.model.StepNames() <= BaseInstance(t).steps.Keys
    requires FailsUnmarked(EnvOf(t), event)
    ensures var env, begun := EnvOf(t), Begun(t, pre);
      var after := RunStep(env, Catching<W>(event), begun);
      && after.thrown.None? && CleanStep(env, Catching<W>(event), begun)
      && FailureInRun(env, Catching<W>(event), begun, 1, AnyFailure)
      && after.unit.queue == [] && after.unit.inProcess == []
      && after.unit.recorded == (if event.annotated then [event] else [])
  {
    hide RunCode, FailureInCode, RecordThroughFacade, CompleteStep, ValidTrigger, BaseInstance, EnvOf, Opened;
    var env, begun, oracle := EnvOf(t), Begun(t, pre), Catching<W>(event);
    var polled := Poll(begun);
    CatchesTheRecord(env, event, polled);
    RecordMarksIff(env, event, polled);
    BegunLooping(t, pre);
    CleanStepReturns(t, oracle, pre, begun);
    var ran := RecordThroughFacade(env, event, polled).unit;
    RecordedUnmarked(env, event, polled);
    CompleteStepFrame(env, t.step, ran);
  }

  lemma RecordedUnmarked<W>(env: Env, event: Event, u: Unit<W>)
    requires FailsUnmarked(env, event)
    ensures var ran := RecordThroughFacade(env, event, u).unit;
      && ran.queue == u.queue && ran.inProcess == u.inProcess
      && ran.recorded == u.recorded + (if event.annotated then [event] else [])
  {
  }

  /**
   * Client code that catches an unmarked failure gets a unit of work that commits; an event whose accessor threw is
   * dispatched all the same.
   */
  lemma CaughtFailureCommits<W>(t: Trigger, pre: Stores<W>, fuel: nat, event: Event)
    requires ValidTrigger(t, pre.storage) && t.model.StepNames() <= BaseInstance(t).steps.Keys
    requires !StartRejected(t, pre.storage) && t.construction.None? && fuel > 0
    requires FailsUnmarked(EnvOf(t), event)
    ensures FailureInRun(EnvOf(t), Catching<W>(event), Begun(t, pre), fuel, AnyFailure)
    ensures var r := RunUnit(t, Catching<W>(event), pre, fuel);
      r.Result? && r.committed && r.dispatched == if event.annotated then [event] else []
  {
    hide StartRejected, ValidTrigger, BaseInstance, EnvOf, RunStep, CleanStep, Begun, FailureInCode;
    CaughtStep(t, pre, event);
    var env, oracle, begun := EnvOf(t), Catching<W>(event), Begun(t, pre);
    BegunQueued(t, pre);
    var after := RunStep(env, oracle, begun);
    assert CleanRun(env, oracle, after.unit, fuel - 1);
    assert Drain(env, oracle, after.unit, fuel - 1) == Ran(after.unit, None);
    CommitsIffClean(t, oracle, pre, fuel);
    DispatchedOfLoop(t, oracle, pre, fuel);
  }

  lemma BegunQueued<W>(t: Trigger, pre: Stores<W>)
    ensures Begun(t, pre).queue == [TriggerEntry(t)] && !Begun(t, pre).ended
  {
  }

  lemma DispatchedOfLoop<W>(t: Trigger, oracle: Oracle<W>, pre: Stores<W>, fuel: nat)
    requires !StartRejected(t, pre.storage) && t.construction.None?
    requires RunUnit(t, oracle, pre, fuel).Result? && RunUnit(t, oracle, pre, fuel).committed
    ensures var ran := Drain(EnvOf(t), oracle, Begun(t, pre), fuel);
      ran.Ran? && RunUnit(t, oracle, pre, fuel).dispatched == Undelivered(ran.unit.recorded, ran.unit.inProcess)
  {
    hide StartRejected, Drain, Begun, EnvOf, Undelivered, Advance, Fail;
  }

  // ----- one of each -----------------------------------------------------------------------------------------

  const FIRST := Step("first", "Started", "p", true, false)
  const LATER := Step("later", "Noticed", "p", false, false)
  const SAGA := SagaModel("type", map[FIRST.eventClass := FIRST, LATER.eventClass := LATER])
  const STARTED := Event(FIRST.eventClass, true, "A", Some("1"), map["p" := ReadsAs("v")])
  const STARTS := Trigger(SAGA, map[], FIRST, STARTED, None, "v", "id", 0, None, {})
  const NOTHING: Stores<string> := Stores([], map[], "", map[])

  /** Its class is not annotated. */
  const PLAIN := Event("Plain", false, "", None, map[])

  /** Its class triggers a later step of the saga, and the accessor of that step's association property throws. */
  const BROKEN := Event(LATER.eventClass, true, "A", Some("1"), map["p" := ReadThrows("accessor")])

  lemma StartsIsValid()
    ensures ValidTrigger(STARTS, NOTHING.storage) && STARTS.model.StepNames() <= BaseInstance(STARTS).steps.Keys
    ensures !StartRejected(STARTS, NOTHING.storage) && EnvOf(STARTS).associations == map["p" := "v"]
    ensures EnvOf(STARTS).model == SAGA
  {
  }

  /** A record the facade refuses, caught: the unit of work commits, and nothing was recorded. */
  lemma RefusedRecordCommits()
    ensures FailureInRun(EnvOf(STARTS), Catching<string>(PLAIN), Begun(STARTS, NOTHING), 1, AnyFailure)
    ensures var r := RunUnit(STARTS, Catching<string>(PLAIN), NOTHING, 1);
      r.Result? && r.committed && r.dispatched == []
  {
    hide ValidTrigger, StartRejected, BaseInstance, EnvOf, Begun, RunUnit, FailureInRun;
    StartsIsValid();
    CaughtFailureCommits(STARTS, NOTHING, 1, PLAIN);
  }

  /** A record whose association accessor throws, caught: the unit of work commits, and the event is dispatched. */
  lemma BrokenAccessorCommits()
    ensures FailureInRun(EnvOf(STARTS), Catching<string>(BROKEN), Begun(STARTS, NOTHING), 1, AnyFailure)
    ensures var r := RunUnit(STARTS, Catching<string>(BROKEN), NOTHING, 1);
      r.Result? && r.committed && r.dispatched == [BROKEN]
  {
    hide ValidTrigger, StartRejected, BaseInstance, EnvOf, Begun, RunUnit, FailureInRun;
    StartsIsValid();
    CaughtFailureCommits(STARTS, NOTHING, 1, BROKEN);
  }
}
