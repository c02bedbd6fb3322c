/** What validateAll reports, said of the classes, their members and parameters as they are declared. */
module ScannerRules {
  import ModelOrdering
  import opened Spi
  import opened Scanner
  import opened ScannerGuarantees

  type ClassName = ModelOrdering.ClassName

  // ----- commands among parameters ---------------------------------------------------------------------------

  /** The parameter at i is the only one that is a command, and it is key. */
  predicate OnlyCommandAt(u: Universe, parameters: seq<ClassName>, key: ClassName, i: nat) {
    && i < |parameters| && parameters[i] == key && u(key).command
    && forall j :: 0 <= j < |parameters| && j != i ==> !u(parameters[j]).command
  }

  ghost predicate OnlyCommand(u: Universe, parameters: seq<ClassName>, key: ClassName) {
    exists i: nat :: OnlyCommandAt(u, parameters, key, i)
  }

  lemma {:induction false} NoneLeft<T(!new)>(p: T -> bool, s: seq<T>)
    ensures Filter(p, s) == [] <==> forall i :: 0 <= i < |s| ==> !p(s[i])
  {
    if s != [] {
      NoneLeft(p, s[1..]);
      assert forall i :: 0 < i < |s| ==> s[i] == s[1..][i - 1];
    }
  }

  /** x, at place i, is the one element that satisfies p. */
  ghost predicate OneAt<T(!new)>(p: T -> bool, s: seq<T>, x: T, i: nat) {
    i < |s| && s[i] == x && p(x) && forall j :: 0 <= j < |s| && j != i ==> !p(s[j])
  }

  lemma OneLater<T(!new)>(p: T -> bool, s: seq<T>, x: T, i: nat)
    requires s != []
    ensures OneAt(p, s, x, i + 1) <==> !p(s[0]) && OneAt(p, s[1..], x, i)
  {
    assert forall j :: 0 <= j < |s[1..]| ==> s[1..][j] == s[j + 1];
    if !p(s[0]) && OneAt(p, s[1..], x, i) {
      assert forall j :: 0 < j < |s| ==> s[j] == s[1..][j - 1];
    }
  }

  lemma OneNow<T(!new)>(p: T -> bool, s: seq<T>, x: T)
    requires s != []
    ensures OneAt(p, s, x, 0) <==> s[0] == x && p(x) && Filter(p, s[1..]) == []
  {
    hide Filter;
    NoneLeft(p, s[1..]);
    assert forall j :: 0 <= j < |s[1..]| ==> s[1..][j] == s[j + 1];
    assert forall j :: 0 < j < |s| ==> s[j] == s[1..][j - 1];
  }

  lemma {:induction false} OneLeft<T(!new)>(p: T -> bool, s: seq<T>, x: T)
    ensures Filter(p, s) == [x] <==> exists i: nat :: OneAt(p, s, x, i)
  {
    if s != [] {
      hide OneAt;
      OneLeft(p, s[1..], x);
      OneNow(p, s, x);
      if i: nat :| OneAt(p, s, x, i) {
        if i > 0 {
          OneLater(p, s, x, i - 1);
        }
      }
      if Filter(p, s) == [x] && !p(s[0]) {
        var i: nat :| OneAt(p, s[1..], x, i);
        OneLater(p, s, x, i);
      }
    }
  }

  /** A handler's commands are the one command key iff exactly one of its parameters is a command, and that is key. */
  lemma OnlyCommandIff(u: Universe, m: Member, key: ClassName)
    ensures CommandsOf(u, m) == [key] <==> OnlyCommand(u, m.parameters, key)
  {
    var isCommand := (x: ClassName) => u(x).command;
    OneLeft(isCommand, m.parameters, key);
    if i: nat :| OneAt(isCommand, m.parameters, key, i) {
      assert OnlyCommandAt(u, m.parameters, key, i);
    }
    if i: nat :| OnlyCommandAt(u, m.parameters, key, i) {
      assert OneAt(isCommand, m.parameters, key, i);
    }
  }

  /** How many parameters are commands. */
  function CommandCount(u: Universe, parameters: seq<ClassName>): nat {
    if parameters == [] then 0 else (if u(parameters[0]).command then 1 else 0) + CommandCount(u, parameters[1..])
  }

  lemma {:induction false} CountsCommands(u: Universe, parameters: seq<ClassName>)
    ensures |Filter((x: ClassName) => u(x).command, parameters)| == CommandCount(u, parameters)
  {
    if parameters != [] {
      CountsCommands(u, parameters[1..]);
    }
  }

  // ----- duplicates ------------------------------------------------------------------------------------------

  /** The member in that place is a handler whose only command is key, or the one loader or saver shape for it. */
  lemma ServedAtIff(u: Universe, classes: seq<ClassName>, rule: Rule, key: ClassName, p: Place)
    ensures ServedAt(u, classes, rule, key, p) <==>
              && p.host in classes && !u(p.host).saga
              && match rule
                 case OneHandler =>
                   p.index < |u(p.host).handlers| && OnlyCommand(u, u(p.host).handlers[p.index].parameters, key)
                 case OneLoader =>
                   && p.index < |u(p.host).loaders| && |u(p.host).loaders[p.index].parameters| == 1
                   && u(p.host).loaders[p.index].result == key && u(key).aggregate
                 case OneSaver =>
                   p.index < |u(p.host).savers| && u(p.host).savers[p.index].parameters == [key] && u(key).aggregate
  {
    hide CommandsOf, OnlyCommand;
    if rule.OneHandler? && p.index < |u(p.host).handlers| {
      OnlyCommandIff(u, u(p.host).handlers[p.index], key);
    }
  }

  /** A duplicate names each member that serves the type, as the simple name of its class and its own. */
  lemma DuplicateNames(u: Universe, classes: seq<ClassName>, error: ModelError, name: string)
    requires error.Duplicate? && error in ValidateAll(u, classes).modelErrors
    ensures name in error.members <==>
              exists p: Place ::
                && ServedAt(u, classes, error.rule, error.type_, p)
                && var members := match error.rule
                                  case OneHandler => u(p.host).handlers
                                  case OneLoader => u(p.host).loaders
                                  case OneSaver => u(p.host).savers;
                   name == p.host.simple + "." + members[p.index].name
  {
    hide ValidateAll, Hosts, FlatMap, Serves, ServedTwice, IsHost;
    ReportedDuplicateIff(u, classes, error);
    var hosts, f := Hosts(u, Deduplicated(classes)), ServingNames(u, error.rule, error.type_);
    HostsOnce(u, classes);
    assert name in error.members <==> name in multiset(error.members);
    assert name in FlatMap(f, hosts) <==> name in multiset(FlatMap(f, hosts));
    FlatMapMember(f, hosts, name);
    forall host ensures name in f(host) <==> exists i: nat :: NamedAt(u, error.rule, error.type_, host, i, name) {
      FlatMapMember(NameIf(u, error.rule, host, error.type_), MembersFor(u, error.rule, host), name);
      NamesAt(u, error.rule, error.type_, host, name);
    }
    if name in error.members {
      var host :| host in hosts && name in f(host);
      var i: nat :| NamedAt(u, error.rule, error.type_, host, i, name);
      assert ServedAt(u, classes, error.rule, error.type_, Place(host, i));
    }
    if p: Place :| ServedAt(u, classes, error.rule, error.type_, p)
                   && name == p.host.simple + "." + MembersFor(u, error.rule, p.host)[p.index].name {
      assert NamedAt(u, error.rule, error.type_, p.host, p.index, name);
      assert p.host in hosts;
    }
  }

  predicate NamedAt(u: Universe, rule: Rule, key: ClassName, host: ClassName, i: nat, name: string) {
    && i < |MembersFor(u, rule, host)| && Serves(u, rule, MembersFor(u, rule, host)[i], key)
    && name == host.simple + "." + MembersFor(u, rule, host)[i].name
  }

  lemma NamesAt(u: Universe, rule: Rule, key: ClassName, host: ClassName, name: string)
    ensures (exists m <- MembersFor(u, rule, host) :: name in NameIf(u, rule, host, key)(m)) <==>
              exists i: nat :: NamedAt(u, rule, key, host, i, name)
  {
    hide Serves;
    var members := MembersFor(u, rule, host);
    if m :| m in members && name in NameIf(u, rule, host, key)(m) {
      var i :| 0 <= i < |members| && members[i] == m;
      assert NamedAt(u, rule, key, host, i, name);
    }
    if i: nat :| NamedAt(u, rule, key, host, i, name) {
      assert members[i] in members && name in NameIf(u, rule, host, key)(members[i]);
    }
  }

  // ----- instance handlers -----------------------------------------------------------------------------------

  /**
   * A missing identifier is reported of a passed-in aggregate that is no saga iff it has an instance handler of that
   * name whose only command is that one, and the command has no identifier.
   */
  lemma MissingIdentifierIff(u: Universe, classes: seq<ClassName>, command: ClassName, host: ClassName,
                             handler: string)
    ensures NoIdentifier(command, host, handler) in ValidateAll(u, classes).modelErrors <==>
              && host in classes && !u(host).saga && u(host).aggregate && u(command).identifiers == 0
              && exists m <- u(host).handlers ::
                   m.name == handler && !m.isConstructor && !m.isStatic && OnlyCommand(u, m.parameters, command)
  {
    hide Duplicates, Entries, Hosts, InstanceHandlerErrors, Results, CommandsOf, OnlyCommand;
    var hosts, error := Hosts(u, Deduplicated(classes)), NoIdentifier(command, host, handler);
    HostsOnce(u, classes);
    InstanceErrorIff(u, hosts, error);
    forall rule: Rule ensures error !in Duplicates(rule, Entries(u, rule, hosts)) {
      if error in Duplicates(rule, Entries(u, rule, hosts)) {
        OnlyDuplicates(rule, Entries(u, rule, hosts), error);
      }
    }
    forall m ensures CommandsOf(u, m) == [command] <==> OnlyCommand(u, m.parameters, command) {
      OnlyCommandIff(u, m, command);
    }
  }

  // ----- the rules inside one class --------------------------------------------------------------------------

  /** The errors of the class's own identifiers and event. */
  predicate BreaksIdentifierRules(u: Universe, c: ClassName) {
    || ((u(c).aggregate || u(c).event.Some?) && u(c).identifiers != 1)
    || (u(c).command && u(c).identifiers > 1)
    || (u(c).event.Some? && !u(u(c).event.value).aggregate)
  }

  /** The error is one of the class's own identifiers or event, with what was found. */
  predicate IdentifierError(u: Universe, c: ClassName, e: ClassError) {
    || (e == NotOneIdentifier(u(c).identifiers) && (u(c).aggregate || u(c).event.Some?) && u(c).identifiers != 1)
    || (e == ManyIdentifiers(u(c).identifiers) && u(c).command && u(c).identifiers > 1)
    || (u(c).event.Some? && e == NotAnAggregate(u(c).event.value) && !u(u(c).event.value).aggregate)
  }

  /** The error is one of the host's handlers, loaders or savers, by name. */
  ghost predicate MemberError(u: Universe, c: ClassName, e: ClassError) {
    || (exists m <- u(c).handlers ::
          e == CommandParameters(m.name, CommandCount(u, m.parameters)) && CommandCount(u, m.parameters) != 1)
    || (exists m <- u(c).loaders :: e == MalformedLoader(m.name) && !(|m.parameters| == 1 && u(m.result).aggregate))
    || (exists m <- u(c).savers ::
          e == MalformedSaver(m.name) && !(|m.parameters| == 1 && u(m.parameters[0]).aggregate))
  }

  lemma IdentifierErrorIff(u: Universe, c: ClassName, e: ClassError)
    ensures e in IdentifierErrors(u, c) <==> IdentifierError(u, c, e)
    ensures IdentifierErrors(u, c) != [] <==> BreaksIdentifierRules(u, c)
  {
  }

  lemma MemberErrorIff(u: Universe, c: ClassName, e: ClassError)
    ensures e in HostErrors(u, c) <==> MemberError(u, c, e)
  {
    hide CommandCount, Filter;
    FlatMapMember(HandlerError(u), u(c).handlers, e);
    FlatMapMember(LoaderError(u), u(c).loaders, e);
    FlatMapMember(SaverError(u), u(c).savers, e);
    forall m: Member ensures |CommandsOf(u, m)| == CommandCount(u, m.parameters) {
      CountsCommands(u, m.parameters);
    }
  }

  // ----- which classes have a result -------------------------------------------------------------------------

  /** A signature of c names x: a saga's steps by their parameters, other classes by handlers, loaders and savers. */
  ghost predicate Names(u: Universe, c: ClassName, x: ClassName) {
    if u(c).saga then exists m <- u(c).steps :: x in m.parameters
    else
      || (exists m <- u(c).handlers :: x in m.parameters)
      || (exists m <- u(c).loaders :: x == m.result)
      || (exists m <- u(c).savers :: x in m.parameters)
  }

  lemma ReachedIff(u: Universe, c: ClassName, x: ClassName)
    ensures x in ReachedTypes(u, c) <==> (u(x).aggregate || u(x).command || u(x).event.Some?) && Names(u, c, x)
  {
    hide FlatMap;
    FlatMapMember(Mentioned, u(c).steps, x);
    FlatMapMember(Mentioned, u(c).handlers, x);
    FlatMapMember((m: Member) => [m.result], u(c).loaders, x);
    FlatMapMember(Mentioned, u(c).savers, x);
  }

  /**
   * A class that was not passed in has a result iff some passed-in class names it and it is an aggregate, command or
   * event that breaks the rules on identifiers and events; the result lists exactly those errors.
   */
  lemma ReachedResultIff(u: Universe, classes: seq<ClassName>, c: ClassName)
    requires c !in classes
    ensures (exists r <- ValidateAll(u, classes).classResults :: r.type_ == c) <==>
              && (u(c).aggregate || u(c).command || u(c).event.Some?) && BreaksIdentifierRules(u, c)
              && exists p <- classes :: Names(u, p, c)
    ensures forall r <- ValidateAll(u, classes).classResults | r.type_ == c ::
              forall e :: e in r.errors <==> IdentifierError(u, c, e)
  {
    hide ValidateAll, ReachedTypes, Names, IdentifierErrors, HostErrors;
    forall p ensures c in ReachedTypes(u, p) <==>
        (u(c).aggregate || u(c).command || u(c).event.Some?) && Names(u, p, c) {
      ReachedIff(u, p, c);
    }
    forall r: ClassResult | r.type_ == c
      ensures r in ValidateAll(u, classes).classResults <==>
                (exists p <- classes :: c in ReachedTypes(u, p)) && ResultFor(u, c, false) == Some(r)
    {
      ResultIff(u, classes, r);
    }
    forall e ensures e in IdentifierErrors(u, c) <==> IdentifierError(u, c, e) {
      IdentifierErrorIff(u, c, e);
    }
    IdentifierErrorIff(u, c, NotOneIdentifier(0));
    if BreaksIdentifierRules(u, c) && exists p <- classes :: c in ReachedTypes(u, p) {
      assert ResultFor(u, c, false) == Some(ClassResult(c, [] + IdentifierErrors(u, c)));
    }
  }

  /**
   * A passed-in class has a result iff it is a saga, has a handler, loader or saver, or breaks those rules; a saga's
   * result lists its own errors, any other's the errors of its members and of its identifiers and event.
   */
  lemma PassedInResultIff(u: Universe, classes: seq<ClassName>, c: ClassName)
    requires c in classes
    ensures (exists r <- ValidateAll(u, classes).classResults :: r.type_ == c) <==>
              || u(c).saga || u(c).handlers != [] || u(c).loaders != [] || u(c).savers != []
              || BreaksIdentifierRules(u, c)
    ensures forall r <- ValidateAll(u, classes).classResults | r.type_ == c ::
              if u(c).saga then r.errors == u(c).sagaErrors
              else forall e :: e in r.errors <==> MemberError(u, c, e) || IdentifierError(u, c, e)
  {
    hide ValidateAll, ReachedTypes, IdentifierErrors, HostErrors;
    forall r: ClassResult | r.type_ == c
      ensures r in ValidateAll(u, classes).classResults <==> ResultFor(u, c, true) == Some(r)
    {
      ResultIff(u, classes, r);
    }
    forall e
      ensures e in IdentifierErrors(u, c) <==> IdentifierError(u, c, e)
      ensures e in HostErrors(u, c) <==> MemberError(u, c, e)
    {
      IdentifierErrorIff(u, c, e);
      MemberErrorIff(u, c, e);
    }
    IdentifierErrorIff(u, c, NotOneIdentifier(0));
    if !IsHost(u, c) && !u(c).saga {
      NoMemberErrors(u, c);
    }
    if ResultFor(u, c, true).Some? {
      assert ResultFor(u, c, true).value.type_ == c;
    }
  }

  lemma NoMemberErrors(u: Universe, c: ClassName)
    requires !IsHost(u, c) && !u(c).saga
    ensures forall e :: !MemberError(u, c, e)
  {
  }

  // ----- the order of a report -------------------------------------------------------------------------------

  lemma {:induction false} OneEach<S(!new), T>(f: S -> seq<T>, s: seq<S>, i: nat, j: nat) returns (a: nat, b: nat)
    requires forall x :: |f(x)| <= 1
    requires i < j < |FlatMap(f, s)|
    ensures a < b < |s| && f(s[a]) == [FlatMap(f, s)[i]] && f(s[b]) == [FlatMap(f, s)[j]]
  {
    var n := |f(s[0])|;
    if i < n {
      a := 0;
      var k := OnePlace(f, s[1..], j - n);
      b := k + 1;
      assert f(s[0]) == [FlatMap(f, s)[i]];
    } else {
      a, b := OneEach(f, s[1..], i - n, j - n);
      a, b := a + 1, b + 1;
    }
  }

  lemma {:induction false} OnePlace<S(!new), T>(f: S -> seq<T>, s: seq<S>, i: nat) returns (a: nat)
    requires forall x :: |f(x)| <= 1
    requires i < |FlatMap(f, s)|
    ensures a < |s| && f(s[a]) == [FlatMap(f, s)[i]]
  {
    var n := |f(s[0])|;
    if i < n {
      a := 0;
      assert f(s[0]) == [FlatMap(f, s)[i]];
    } else {
      a := OnePlace(f, s[1..], i - n);
      a := a + 1;
    }
  }

  /** The duplicates of a rule come in the order of their types' simple names, and of their full names where equal. */
  lemma DuplicatesInOrder(rule: Rule, entries: seq<Entry>, i: nat, j: nat)
    requires i < j < |Duplicates(rule, entries)|
    ensures var d := Duplicates(rule, entries);
      && d[i].Duplicate? && d[j].Duplicate?
      && (ModelOrdering.Ordering.Less(d[i].type_.simple, d[j].type_.simple)
          || (d[i].type_.simple == d[j].type_.simple
              && ModelOrdering.Ordering.Less(d[i].type_.full, d[j].type_.full)))
  {
    hide Keys, Group;
    KeysInOrder(entries);
    var a, b := OneEach(ReportedAt(rule, entries), Keys(entries), i, j);
  }
}
