/** What client code can and cannot do to the unit of work it runs in, whatever it does. */
module ClientCode {
  import opened Spi
  import opened InMemoryStorage
  import opened AggregateModel
  import opened UnitOfWork

  // ----- the frame of client code ----------------------------------------------------------------------------

  /** The queue entries of the events recorded from a place on, in recording order. */
  function PendingFrom(env: Env, recorded: seq<Event>, from: nat): seq<Pending>
    requires from <= |recorded|
    decreases |recorded| - from
  {
    if from == |recorded| then []
    else
      (if Reacts(env, recorded[from])
       then [Pending(env.model.steps[recorded[from].className], recorded[from], Some(from))] else [])
      + PendingFrom(env, recorded, from + 1)
  }

  function PutAll(contexts: Contexts, id: SagaId, puts: seq<(string, string)>): Contexts {
    if puts == [] then contexts
    else
      var n := |puts| - 1;
      ContextWritten(PutAll(contexts, id, puts[..n]), id, puts[n].0, puts[n].1)
  }

  predicate RecordsAppended(env: Env, r: seq<Event>, r': seq<Event>, queue: seq<Pending>, queue': seq<Pending>) {
    && |r| <= |r'| && r'[..|r|] == r
    && queue' == queue + PendingFrom(env, r', |r|)
    && forall i :: |r| <= i < |r'| ==> Recordable(r'[i])
  }

  predicate PutsAppended(env: Env, p: seq<(string, string)>, p': seq<(string, string)>, c: Contexts, c': Contexts) {
    && |p| <= |p'| && p'[..|p|] == p
    && c' == PutAll(c, env.sagaId, p'[|p|..])
  }

  /**
   * From u to u' client code ran: it may have changed client state, written context, recorded events (queueing
   * those that react, in order) and caused a rollback, once and for all; nothing else.
   */
  ghost predicate Extends<W>(env: Env, u: Unit<W>, u': Unit<W>) {
    && u'.storage == u.storage && u'.stepsRun == u.stepsRun && u'.marks == u.marks && u'.currentStep == u.currentStep
    && u'.ended == u.ended && u'.inProcess == u.inProcess
    && RecordsAppended(env, u.recorded, u'.recorded, u.queue, u'.queue)
    && |u'.touched| == |u.touched| + (|u'.recorded| - |u.recorded|) && u'.touched[..|u.touched|] == u.touched
    && (forall i :: |u.recorded| <= i < |u'.recorded| ==>
          Recordable(u'.recorded[i]) && u'.touched[|u.touched| + (i - |u.recorded|)] == Reference(u'.recorded[i]))
    && PutsAppended(env, u.puts, u'.puts, u.contexts, u'.contexts)
    && (u.rollbackOnly.Some? ==> u'.rollbackOnly == u.rollbackOnly)
  }

  lemma {:induction false} PendingFromPrefix(env: Env, r: seq<Event>, r': seq<Event>, from: nat)
    requires from <= |r| <= |r'| && r'[..|r|] == r
    ensures PendingFrom(env, r', from) == PendingFrom(env, r, from) + PendingFrom(env, r', |r|)
    decreases |r| - from
  {
    if from < |r| {
      assert r'[from] == r[from];
      PendingFromPrefix(env, r, r', from + 1);
    }
  }

  lemma {:induction false} PutAllSplit(contexts: Contexts, id: SagaId, p: seq<(string, string)>,
                                       q: seq<(string, string)>)
    ensures PutAll(contexts, id, p + q) == PutAll(PutAll(contexts, id, p), id, q)
  {
    if q == [] {
      assert p + q == p;
    } else {
      var n := |q| - 1;
      PutAllSplit(contexts, id, p, q[..n]);
      assert (p + q)[..|p + q| - 1] == p + q[..n];
    }
  }

  lemma RecordsAppendedTransitive(env: Env, r: seq<Event>, r1: seq<Event>, r2: seq<Event>,
                                  q: seq<Pending>, q1: seq<Pending>, q2: seq<Pending>)
    requires RecordsAppended(env, r, r1, q, q1) && RecordsAppended(env, r1, r2, q1, q2)
    ensures RecordsAppended(env, r, r2, q, q2)
  {
    PendingFromPrefix(env, r1, r2, |r|);
    assert r2[..|r|] == r1[..|r|];
    forall i | |r| <= i < |r2| ensures Recordable(r2[i]) {
      if i < |r1| {
        assert r2[i] == r1[i];
      }
    }
  }

  lemma PutsAppendedTransitive(env: Env, p: seq<(string, string)>, p1: seq<(string, string)>, p2: seq<(string, string)>,
                               c: Contexts, c1: Contexts, c2: Contexts)
    requires PutsAppended(env, p, p1, c, c1) && PutsAppended(env, p1, p2, c1, c2)
    ensures PutsAppended(env, p, p2, c, c2)
  {
    PutAllSplit(c, env.sagaId, p1[|p|..], p2[|p1|..]);
    assert p2[|p|..] == p1[|p|..] + p2[|p1|..];
    assert p2[..|p|] == p1[..|p|];
  }

  lemma ExtendsTransitive<W>(env: Env, u: Unit<W>, u1: Unit<W>, u2: Unit<W>)
    requires Extends(env, u, u1) && Extends(env, u1, u2)
    ensures Extends(env, u, u2)
  {
    hide PutAll, PendingFrom, RecordsAppended, PutsAppended;
    RecordsAppendedTransitive(env, u.recorded, u1.recorded, u2.recorded, u.queue, u1.queue, u2.queue);
    PutsAppendedTransitive(env, u.puts, u1.puts, u2.puts, u.contexts, u1.contexts, u2.contexts);
    TouchedTransitive(env, u, u1, u2);
  }

  lemma TouchedTransitive<W>(env: Env, u: Unit<W>, u1: Unit<W>, u2: Unit<W>)
    requires Extends(env, u, u1) && Extends(env, u1, u2)
    ensures |u2.touched| == |u.touched| + (|u2.recorded| - |u.recorded|) && u2.touched[..|u.touched|] == u.touched
    ensures forall i :: |u.recorded| <= i < |u2.recorded| ==>
          Recordable(u2.recorded[i]) && u2.touched[|u.touched| + (i - |u.recorded|)] == Reference(u2.recorded[i])
  {
    hide PutAll, PendingFrom, PutsAppended;
    assert u2.touched[..|u.touched|] == u1.touched[..|u.touched|];
    forall i | |u.recorded| <= i < |u2.recorded|
      ensures Recordable(u2.recorded[i]) && u2.touched[|u.touched| + (i - |u.recorded|)] == Reference(u2.recorded[i]) {
      if i < |u1.recorded| {
        assert u2.recorded[i] == u1.recorded[i];
        assert u2.touched[|u.touched| + (i - |u.recorded|)] == u1.touched[|u.touched| + (i - |u.recorded|)];
      }
    }
  }

  lemma MarkExtends<W>(env: Env, u: Unit<W>, cause: Cause)
    ensures Extends(env, u, Mark(u, cause))
  {
  }

  lemma RecordExtends<W>(env: Env, event: Event, u: Unit<W>)
    ensures Extends(env, u, RecordEvent(env, event, u).unit)
  {
    if Recordable(event) {
      var r := u.recorded + [event];
      assert PendingFrom(env, r, |r|) == [];
      assert AccessorThrows(env, event) ==> !Reacts(env, event);
      assert u.puts[|u.puts|..] == [];
    } else {
      MarkExtends(env, u, INVALID_EVENT);
    }
  }

  lemma FacadeExtends<W>(env: Env, event: Event, u: Unit<W>)
    ensures Extends(env, u, RecordThroughFacade(env, event, u).unit)
  {
    hide Extends, RecordEvent;
    UnchangedExtends(env, u);
    RecordExtends(env, event, u);
  }

  lemma PutExtends<W>(env: Env, name: string, value: string, u: Unit<W>)
    ensures Extends(env, u, WithState(env, name, value, u))
  {
    var p := u.puts + [(name, value)];
    assert p[|u.puts|..] == [(name, value)];
    assert PutAll(u.contexts, env.sagaId, [(name, value)]) == ContextWritten(u.contexts, env.sagaId, name, value) by {
      assert [(name, value)][..0] == [];
    }
  }

  lemma {:induction false} EffectsExtend<W>(env: Env, effects: seq<Effect<W>>, u: Unit<W>)
    ensures Extends(env, u, RunEffects(env, effects, u).unit)
    decreases effects
  {
    hide Extends;
    if effects == [] {
      UnchangedExtends(env, u);
    } else {
      var first := RunEffect(env, effects[0], u);
      EffectExtends(env, effects[0], u);
      if first.thrown.None? {
        EffectsExtend(env, effects[1..], first.unit);
        ExtendsTransitive(env, u, first.unit, RunEffects(env, effects[1..], first.unit).unit);
      }
    }
  }

  lemma UnchangedExtends<W>(env: Env, u: Unit<W>)
    ensures Extends(env, u, u)
  {
  }

  lemma WorldExtends<W>(env: Env, u: Unit<W>, world: W)
    ensures Extends(env, u, u.(world := world))
  {
  }

  lemma AggregatesExtend<W>(env: Env, u: Unit<W>, aggregates: Objects)
    ensures Extends(env, u, u.(aggregates := aggregates))
  {
  }

  lemma {:induction false} EffectExtends<W>(env: Env, effect: Effect<W>, u: Unit<W>)
    ensures Extends(env, u, RunEffect(env, effect, u).unit)
    decreases effect
  {
    hide Extends, RecordThroughFacade, WithState, SendCommand;
    match effect
    case Change(world) => WorldExtends(env, u, world);
    case Work(ops) => AggregatesExtend(env, u, RunOps(u.aggregates, ops));
    case PutState(name, value) => PutExtends(env, name, value, u);
    case Record(event, _) => FacadeExtends(env, event, u);
    case Send(command, call, _) => SendExtends(env, command, call, u);
  }

  lemma {:induction false} SendExtends<W>(env: Env, command: Option<Command>, call: Call<W>, u: Unit<W>)
    ensures Extends(env, u, SendCommand(env, command, call, u).unit)
    decreases call, 1
  {
    hide Extends, Dispatch;
    MarkExtends(env, u, INVALID_COMMAND);
    MarkExtends(env, u, NO_HANDLER);
    if command.Some? && command.value.annotated && command.value.className in env.routes {
      var route := env.routes[command.value.className];
      DispatchExtends(env, route, command.value, call, u);
      var after := Dispatch(env, route, command.value, call, u);
      if after.thrown.Some? {
        MarkExtends(env, after.unit, after.thrown.value);
        ExtendsTransitive(env, u, after.unit, Mark(after.unit, after.thrown.value));
      }
    }
  }

  lemma {:induction false} DispatchExtends<W>(env: Env, route: Route, command: Command, call: Call<W>, u: Unit<W>)
    ensures Extends(env, u, Dispatch(env, route, command, call, u).unit)
    decreases call, 0
  {
    hide Extends, RunCode;
    UnchangedExtends(env, u);
    match route
    case ServiceRoute => CodeExtends(env, call.handler, u);
    case InstanceRoute =>
      CodeExtends(env, call.load, u);
      var loaded := RunCode(env, call.load, u).unit;
      CodeExtends(env, call.handler, loaded);
      var handled := RunCode(env, call.handler, loaded).unit;
      CodeExtends(env, call.save, handled);
      ExtendsTransitive(env, u, loaded, handled);
      ExtendsTransitive(env, u, handled, RunCode(env, call.save, handled).unit);
    case CreationRoute =>
      CodeExtends(env, call.handler, u);
      var created := RunCode(env, call.handler, u).unit;
      CodeExtends(env, call.save, created);
      ExtendsTransitive(env, u, created, RunCode(env, call.save, created).unit);
  }

  lemma {:induction false} CodeExtends<W>(env: Env, code: Code<W>, u: Unit<W>)
    ensures Extends(env, u, RunCode(env, code, u).unit)
    decreases code
  {
    hide Extends;
    EffectsExtend(env, code.effects, u);
  }

  // ----- rollback-only ---------------------------------------------------------------------------------------

  /**
   * A record fails iff the event is not annotated, its identifier cannot be read, or the accessor of its association
   * property throws; it marks the unit of work iff the event is annotated and its identifier cannot be read; and the
   * event is recorded, failed or not, iff neither of these two is the case.
   */
  lemma RecordMarksIff<W>(env: Env, event: Event, u: Unit<W>)
    ensures var after := RecordThroughFacade(env, event, u);
      && (after.thrown.Some? <==> !event.annotated || event.identifier.None? || AccessorThrows(env, event))
      && (after.unit.rollbackOnly.Some? <==> u.rollbackOnly.Some? || MarkingEvent(event))
      && (after.unit.recorded == u.recorded + [event] <==> event.annotated && event.identifier.Some?)
  {
    assert |u.recorded + [event]| != |u.recorded|;
  }

  /** The one way to fail inside the recorder's own try. */
  predicate MarkingEvent(event: Event) {
    event.annotated && event.identifier.None?
  }

  /** The failing sends and records that are looked for: all of them, or those that mark the unit of work. */
  datatype Sought = AnyFailure | MarkingFailure

  /** Some send or record reached by the code fails, at any nesting depth, caught or not; a failing send marks. */
  predicate FailureInEffects<W>(env: Env, effects: seq<Effect<W>>, u: Unit<W>, sought: Sought)
    decreases effects
  {
    effects != [] &&
    (FailureIn(env, effects[0], u, sought)
     || (RunEffect(env, effects[0], u).thrown.None? &&
           FailureInEffects(env, effects[1..], RunEffect(env, effects[0], u).unit, sought)))
  }

  predicate FailureIn<W>(env: Env, effect: Effect<W>, u: Unit<W>, sought: Sought)
    decreases effect
  {
    match effect
    case Change(_) => false
    case Work(_) => false
    case PutState(_, _) => false
    case Record(event, _) =>
      if sought.AnyFailure? then RecordThroughFacade(env, event, u).thrown.Some? else MarkingEvent(event)
    case Send(command, call, _) =>
      || SendCommand(env, command, call, u).thrown.Some?
      || FailureInCall(env, env.routes[command.value.className], call, u, sought)
  }

  /** A command that is handled without throwing may still hide a failure its handler caught. */
  predicate FailureInCall<W>(env: Env, route: Route, call: Call<W>, u: Unit<W>, sought: Sought)
    decreases call
  {
    match route
    case ServiceRoute => FailureInCode(env, call.handler, u, sought)
    case InstanceRoute =>
      var loaded := RunCode(env, call.load, u).unit;
      var handled := RunCode(env, call.handler, loaded).unit;
      FailureInCode(env, call.load, u, sought) || FailureInCode(env, call.handler, loaded, sought) ||
      FailureInCode(env, call.save, handled, sought)
    case CreationRoute =>
      FailureInCode(env, call.handler, u, sought) ||
      FailureInCode(env, call.save, RunCode(env, call.handler, u).unit, sought)
  }

  predicate FailureInCode<W>(env: Env, code: Code<W>, u: Unit<W>, sought: Sought)
    decreases code
  {
    FailureInEffects(env, code.effects, u, sought)
  }

  /**
   * The unit of work is rollback-only iff it was before or a send failed or an event was recorded whose identifier
   * cannot be read, whatever was caught.
   */
  lemma {:induction false} EffectsMark<W>(env: Env, effects: seq<Effect<W>>, u: Unit<W>)
    ensures RunEffects(env, effects, u).unit.rollbackOnly.Some? <==>
        u.rollbackOnly.Some? || FailureInEffects(env, effects, u, MarkingFailure)
    decreases effects
  {
    if effects != [] {
      var first := RunEffect(env, effects[0], u);
      EffectMarks(env, effects[0], u);
      if first.thrown.None? {
        EffectsMark(env, effects[1..], first.unit);
      }
    }
  }

  lemma {:induction false} EffectMarks<W>(env: Env, effect: Effect<W>, u: Unit<W>)
    ensures RunEffect(env, effect, u).unit.rollbackOnly.Some? <==>
              u.rollbackOnly.Some? || FailureIn(env, effect, u, MarkingFailure)
    decreases effect
  {
    hide SendCommand, Dispatch, FailureInCall, RecordThroughFacade;
    match effect
    case Change(_) =>
    case Work(_) =>
    case PutState(_, _) =>
    case Record(event, _) => RecordMarksIff(env, event, u);
    case Send(command, call, _) => SendMarks(env, command, call, u);
  }

  lemma {:induction false} SendMarks<W>(env: Env, command: Option<Command>, call: Call<W>, u: Unit<W>)
    ensures var after := SendCommand(env, command, call, u);
      && (after.thrown.None? ==> command.Some? && command.value.className in env.routes)
      && (after.unit.rollbackOnly.Some? <==>
            u.rollbackOnly.Some? || after.thrown.Some? ||
            FailureInCall(env, env.routes[command.value.className], call, u, MarkingFailure))
    decreases call, 1
  {
    hide Dispatch, FailureInCall;
    if command.Some? && command.value.annotated && command.value.className in env.routes {
      DispatchMarks(env, env.routes[command.value.className], command.value, call, u);
    }
  }

  lemma {:induction false} DispatchMarks<W>(env: Env, route: Route, command: Command, call: Call<W>, u: Unit<W>)
    ensures var after := Dispatch(env, route, command, call, u);
      after.thrown.None? ==>
        (after.unit.rollbackOnly.Some? <==>
           u.rollbackOnly.Some? || FailureInCall(env, route, call, u, MarkingFailure))
    decreases call, 0
  {
    hide RunCode, FailureInCode;
    match route
    case ServiceRoute => CodeMarks(env, call.handler, u);
    case InstanceRoute =>
      var loaded := RunCode(env, call.load, u).unit;
      var handled := RunCode(env, call.handler, loaded).unit;
      CodeMarks(env, call.load, u);
      CodeMarks(env, call.handler, loaded);
      CodeMarks(env, call.save, handled);
    case CreationRoute =>
      CodeMarks(env, call.handler, u);
      CodeMarks(env, call.save, RunCode(env, call.handler, u).unit);
  }

  lemma {:induction false} CodeMarks<W>(env: Env, code: Code<W>, u: Unit<W>)
    ensures RunCode(env, code, u).unit.rollbackOnly.Some? <==>
              u.rollbackOnly.Some? || FailureInCode(env, code, u, MarkingFailure)
    decreases code
  {
    EffectsMark(env, code.effects, u);
  }

  // ----- what a command that was handled has done ------------------------------------------------------------

  /**
   * An instance command is handled iff it names an aggregate, and loading, handling and saving it all succeed, in
   * turn.
   */
  lemma InstanceCommandIff<W>(env: Env, command: Command, call: Call<W>, u: Unit<W>)
    requires command.annotated && command.className in env.routes && env.routes[command.className] == InstanceRoute
    ensures var after := SendCommand(env, Some(command), call, u);
      var loaded := RunCode(env, call.load, u);
      var handled := RunCode(env, call.handler, loaded.unit);
      var saved := RunCode(env, call.save, handled.unit);
      && (after.thrown.None? <==>
            command.identifier.Some? && loaded.finish.Returns? && !handled.finish.Throws? && !saved.finish.Throws?)
      && (after.thrown.None? ==> after.unit == saved.unit)
      && (after.thrown.Some? ==> after.unit.rollbackOnly.Some?)
  {
    hide RunCode;
  }

  /** A creation command is handled iff the handler creates an aggregate and saving it succeeds. */
  lemma CreationCommandIff<W>(env: Env, command: Command, call: Call<W>, u: Unit<W>)
    requires command.annotated && command.className in env.routes && env.routes[command.className] == CreationRoute
    ensures var after := SendCommand(env, Some(command), call, u);
      var created := RunCode(env, call.handler, u);
      var saved := RunCode(env, call.save, created.unit);
      && (after.thrown.None? <==> created.finish.Returns? && !saved.finish.Throws?)
      && (after.thrown.None? ==> after.unit == saved.unit)
      && (after.thrown.Some? ==> after.unit.rollbackOnly.Some?)
  {
    hide RunCode;
  }

  /** A loader that gets a stored aggregate, a handler that changes that very object, and a saver that stores it. */
  function ThroughStore<W>(key: Key, state: string, n: nat): Call<W> {
    Call(Code([Effect<W>.Work([Get(key)])], Returns), Code([Effect<W>.Work([Mutate(n, state)])], Returns),
         Code([Effect<W>.Work([Store(n)])], Returns))
  }

  lemma WorkRuns<W>(env: Env, op: Op, u: Unit<W>)
    ensures RunCode(env, Code([Effect<W>.Work([op])], Returns), u) ==
              Ending(u.(aggregates := RunOp(u.aggregates, op)), Returns)
  {
    hide RunOps, RunOp;
    OneOp(u.aggregates, op);
    var work := Effect<W>.Work([op]);
    var first := RunEffect(env, work, u);
    assert [work][1..] == [] && RunEffects(env, [], first.unit) == After(first.unit, None);
  }

  /** Handling an instance command so changes the state stored under its key and nothing else in the unit of work. */
  lemma HandledThroughStore<W>(env: Env, command: Command, key: Key, state: string, u: Unit<W>)
    requires command.annotated && command.className in env.routes && env.routes[command.className] == InstanceRoute
    requires command.identifier.Some? && WellFormed(u.aggregates) && key in u.aggregates.entries
    ensures var after := SendCommand(env, Some(command), ThroughStore(key, state, |u.aggregates.held|), u);
      && after.thrown.None? && after.unit == u.(aggregates := after.unit.aggregates)
      && Leave(after.unit.aggregates) == Leave(u.aggregates)[key := state]
  {
    hide RunCode, RunOp, Leave;
    var n := |u.aggregates.held|;
    var loaded := u.(aggregates := RunOp(u.aggregates, Get(key)));
    var handled := loaded.(aggregates := RunOp(loaded.aggregates, Mutate(n, state)));
    WorkRuns(env, Get(key), u);
    WorkRuns(env, Mutate(n, state), loaded);
    WorkRuns(env, Store(n), handled);
    InstanceCommandIff(env, command, ThroughStore(key, state, n), u);
    GotChangedStored(u.aggregates, key, state);
  }

  // ----- what a failing command throws -----------------------------------------------------------------------

  /**
   * A send throws exactly this: the refusal of a null or un-annotated command, of one nobody handles, of an instance
   * command without an identifier, of a loader or creation handler that gives nothing; or else what the first of
   * loader, handler and saver to fail has thrown.
   */
  lemma SendThrows<W>(env: Env, command: Option<Command>, call: Call<W>, u: Unit<W>)
    ensures var thrown := SendCommand(env, command, call, u).thrown;
      if command.None? || !command.value.annotated then thrown == Some(INVALID_COMMAND)
      else if command.value.className !in env.routes then thrown == Some(NO_HANDLER)
      else
        match env.routes[command.value.className]
        case ServiceRoute =>
          var handled := RunCode(env, call.handler, u);
          && thrown == (if handled.finish.Throws? then Some(handled.finish.cause) else None)
          && (thrown.None? ==> SendCommand(env, command, call, u).unit == handled.unit)
        case InstanceRoute =>
          var loaded := RunCode(env, call.load, u);
          var handled := RunCode(env, call.handler, loaded.unit);
          var saved := RunCode(env, call.save, handled.unit);
          if command.value.identifier.None? then thrown == Some(INVALID_COMMAND)
          else if loaded.finish.Throws? then thrown == Some(loaded.finish.cause)
          else if loaded.finish.ReturnsNull? then thrown == Some(NOT_FOUND)
          else if handled.finish.Throws? then thrown == Some(handled.finish.cause)
          else thrown == if saved.finish.Throws? then Some(saved.finish.cause) else None
        case CreationRoute =>
          var created := RunCode(env, call.handler, u);
          var saved := RunCode(env, call.save, created.unit);
          if created.finish.Throws? then thrown == Some(created.finish.cause)
          else if created.finish.ReturnsNull? then thrown == Some(NULL_CREATED)
          else thrown == if saved.finish.Throws? then Some(saved.finish.cause) else None
  {
    hide RunCode;
  }

  /** Client code sees all there is, but of the aggregates only their states by key. */
  lemma ObservedIs<W>(u: Unit<W>)
    requires WellFormed(u.aggregates)
    ensures Observed(u) == u.(aggregates := Observed(u).aggregates)
    ensures Leave(Observed(u).aggregates) == Leave(u.aggregates) && Observed(u).aggregates.held == []
  {
    LeaveEnter(Leave(u.aggregates));
  }

  // ----- one thing after the other ---------------------------------------------------------------------------

  /** Client code ends as its last effect leaves it, unless one before lets an exception out: then there, with that. */
  lemma {:induction false} InTurn<W>(env: Env, first: seq<Effect<W>>, second: seq<Effect<W>>, finish: Finish,
                                     u: Unit<W>)
    ensures var before := RunCode(env, Code(first, Returns), u);
      RunCode(env, Code(first + second, finish), u) ==
        if before.finish.Throws? then before else RunCode(env, Code(second, finish), before.unit)
    decreases first
  {
    hide RunEffect;
    if first == [] {
      assert first + second == second;
    } else {
      var next := RunEffect(env, first[0], u);
      assert (first + second)[0] == first[0] && (first + second)[1..] == first[1..] + second;
      if next.thrown.None? {
        InTurn(env, first[1..], second, finish, next.unit);
      }
    }
  }

  /**
   * One effect alone: a record or send lets its exception out iff it is not caught, and leaves the unit of work as is
   * either way; the others let none out.
   */
  lemma OneEffectIs<W>(env: Env, effect: Effect<W>, u: Unit<W>)
    ensures var ran := RunCode(env, Code([effect], Returns), u);
      && (effect.Change? ==> ran == Ending(u.(world := effect.world), Returns))
      && (effect.Work? ==> ran == Ending(u.(aggregates := RunOps(u.aggregates, effect.ops)), Returns))
      && (effect.PutState? ==>
            && ran.finish == Returns && ran.unit.puts == u.puts + [(effect.name, effect.value)]
            && env.sagaId in ran.unit.contexts && effect.name in ran.unit.contexts[env.sagaId]
            && ran.unit.contexts[env.sagaId][effect.name] == effect.value)
      && (effect.Record? ==>
            && var after := RecordThroughFacade(env, effect.event, u);
               && ran.unit == after.unit
               && ran.finish == if after.thrown.Some? && !effect.caught then Throws(after.thrown.value) else Returns)
      && (effect.Send? ==>
            && var after := SendCommand(env, effect.command, effect.call, u);
               && ran.unit == after.unit
               && ran.finish == if after.thrown.Some? && !effect.caught then Throws(after.thrown.value) else Returns)
  {
    hide RecordThroughFacade, SendCommand, RunOps;
    var after := RunEffect(env, effect, u);
    assert [effect][1..] == [] && RunEffects(env, [], after.unit) == After(after.unit, None);
  }
}
