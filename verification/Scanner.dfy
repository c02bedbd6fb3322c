/**
 * ReflectiveAnnotationScanner.validateAll over classes given as data: which classes it validates and reports on, and
 * the rules that span classes. Members are listed in the order the scanner sorts them into, by member name.
 */
module Scanner {
  import opened Spi
  import opened ModelOrdering

  datatype Member = Member(name: string, parameters: seq<ClassName>, result: ClassName, isStatic: bool,
                           isConstructor: bool)

  /** What the scanner reads from one class; event is the aggregate its @DomainEvent names. */
  datatype ClassModel = ClassModel(
    saga: bool, aggregate: bool, command: bool, event: Option<ClassName>, identifiers: nat,
    steps: seq<Member>, handlers: seq<Member>, loaders: seq<Member>, savers: seq<Member>, sagaErrors: seq<ClassError>)

  type Universe = ClassName -> ClassModel

  datatype ClassError =
    | SagaRule(message: string)
    | CommandParameters(member: string, found: nat)
    | MalformedLoader(member: string)
    | MalformedSaver(member: string)
    | NotOneIdentifier(found: nat)
    | ManyIdentifiers(found: nat)
    | NotAnAggregate(named: ClassName)

  datatype ClassResult = ClassResult(type_: ClassName, errors: seq<ClassError>)

  datatype Rule = OneHandler | OneLoader | OneSaver

  datatype ModelError =
    | Duplicate(rule: Rule, type_: ClassName, members: seq<string>)
    | NoIdentifier(command: ClassName, host: ClassName, handler: string)

  datatype Report = Report(classResults: seq<ClassResult>, modelErrors: seq<ModelError>)

  // ----- one class -------------------------------------------------------------------------------------------

  predicate IsHost(u: Universe, c: ClassName) {
    !u(c).saga && (u(c).handlers != [] || u(c).loaders != [] || u(c).savers != [])
  }

  predicate IsModelType(u: Universe, c: ClassName) {
    u(c).aggregate || u(c).event.Some? || u(c).command
  }

  function Filter<T(!new)>(p: T -> bool, s: seq<T>): (r: seq<T>)
    ensures forall x :: x in r <==> x in s && p(x)
  {
    if s == [] then [] else (if p(s[0]) then [s[0]] else []) + Filter(p, s[1..])
  }

  function FlatMap<S, T>(f: S -> seq<T>, s: seq<S>): seq<T> {
    if s == [] then [] else f(s[0]) + FlatMap(f, s[1..])
  }

  function Mentioned(m: Member): seq<ClassName> {
    m.parameters
  }

  /** The model types the signatures of c name. */
  function ReachedTypes(u: Universe, c: ClassName): seq<ClassName> {
    Filter((x: ClassName) => IsModelType(u, x),
           if u(c).saga
           then FlatMap(Mentioned, u(c).steps)
           else
             FlatMap(Mentioned, u(c).handlers) + FlatMap((m: Member) => [m.result], u(c).loaders)
             + FlatMap(Mentioned, u(c).savers))
  }

  function CommandsOf(u: Universe, m: Member): seq<ClassName> {
    Filter((x: ClassName) => u(x).command, m.parameters)
  }

  predicate WellFormedLoader(u: Universe, m: Member) {
    |m.parameters| == 1 && u(m.result).aggregate
  }

  predicate WellFormedSaver(u: Universe, m: Member) {
    |m.parameters| == 1 && u(m.parameters[0]).aggregate
  }

  function HandlerError(u: Universe): Member -> seq<ClassError> {
    (m: Member) => if |CommandsOf(u, m)| != 1 then [CommandParameters(m.name, |CommandsOf(u, m)|)] else []
  }

  function LoaderError(u: Universe): Member -> seq<ClassError> {
    (m: Member) => if !WellFormedLoader(u, m) then [MalformedLoader(m.name)] else []
  }

  function SaverError(u: Universe): Member -> seq<ClassError> {
    (m: Member) => if !WellFormedSaver(u, m) then [MalformedSaver(m.name)] else []
  }

  function HostErrors(u: Universe, c: ClassName): seq<ClassError> {
    FlatMap(HandlerError(u), u(c).handlers) + FlatMap(LoaderError(u), u(c).loaders) +
        FlatMap(SaverError(u), u(c).savers)
  }

  function IdentifierErrors(u: Universe, c: ClassName): seq<ClassError> {
    (if (u(c).aggregate || u(c).event.Some?) && u(c).identifiers != 1 then [NotOneIdentifier(u(c).identifiers)] else [])
    + (if u(c).command && u(c).identifiers > 1 then [ManyIdentifiers(u(c).identifiers)] else [])
    + (if u(c).event.Some? && !u(u(c).event.value).aggregate then [NotAnAggregate(u(c).event.value)] else [])
  }

  /** validateInModel: None where the class gets no result. */
  function ResultFor(u: Universe, c: ClassName, passedIn: bool): Option<ClassResult> {
    if passedIn && u(c).saga then Some(ClassResult(c, u(c).sagaErrors))
    else
      var host := passedIn && IsHost(u, c);
      var errors := (if host then HostErrors(u, c) else []) + IdentifierErrors(u, c);
      if host || errors != [] then Some(ClassResult(c, errors)) else None
  }

  // ----- the rules across classes ----------------------------------------------------------------------------

  /** A well-formed member, the type it handles, loads or saves, and how it is named in a report. */
  datatype Entry = Entry(key: ClassName, member: string)

  function MemberEntry(u: Universe, rule: Rule, host: ClassName, m: Member): seq<Entry> {
    var named := host.simple + "." + m.name;
    match rule
    case OneHandler => if |CommandsOf(u, m)| == 1 then [Entry(CommandsOf(u, m)[0], named)] else []
    case OneLoader => if WellFormedLoader(u, m) then [Entry(m.result, named)] else []
    case OneSaver => if WellFormedSaver(u, m) then [Entry(m.parameters[0], named)] else []
  }

  function MembersFor(u: Universe, rule: Rule, host: ClassName): seq<Member> {
    match rule
    case OneHandler => u(host).handlers
    case OneLoader => u(host).loaders
    case OneSaver => u(host).savers
  }

  function EntryOf(u: Universe, rule: Rule, host: ClassName): Member -> seq<Entry> {
    (m: Member) => MemberEntry(u, rule, host, m)
  }

  function HostEntries(u: Universe, rule: Rule): ClassName -> seq<Entry> {
    (host: ClassName) => FlatMap(EntryOf(u, rule, host), MembersFor(u, rule, host))
  }

  function Entries(u: Universe, rule: Rule, hosts: seq<ClassName>): seq<Entry> {
    FlatMap(HostEntries(u, rule), hosts)
  }

  function MemberIf(key: ClassName): Entry -> seq<string> {
    (e: Entry) => if e.key == key then [e.member] else []
  }

  /** The members of one key, in the order they were found. */
  function Group(entries: seq<Entry>, key: ClassName): seq<string> {
    FlatMap(MemberIf(key), entries)
  }

  /** The keys of the grouping TreeMap, in its order. */
  function Keys(entries: seq<Entry>): (r: seq<ClassName>)
    ensures forall k :: k in r <==> exists e <- entries :: e.key == k
  {
    if entries == [] then []
    else
      assert entries == entries[..|entries| - 1] + [entries[|entries| - 1]];
      InsertKey(Keys(entries[..|entries| - 1]), entries[|entries| - 1].key)
  }

  function Reported(rule: Rule, entries: seq<Entry>, key: ClassName): seq<ModelError> {
    if |Group(entries, key)| > 1 then [Duplicate(rule, key, SortNames(Group(entries, key)))] else []
  }

  function ReportedAt(rule: Rule, entries: seq<Entry>): ClassName -> seq<ModelError> {
    (key: ClassName) => Reported(rule, entries, key)
  }

  function Duplicates(rule: Rule, entries: seq<Entry>): seq<ModelError> {
    FlatMap(ReportedAt(rule, entries), Keys(entries))
  }

  /** An instance handler of a command that has no identifier to load its aggregate by. */
  function InstanceError(u: Universe, host: ClassName): Member -> seq<ModelError> {
    (m: Member) =>
      if !m.isConstructor && !m.isStatic && |CommandsOf(u, m)| == 1 && u(CommandsOf(u, m)[0]).identifiers == 0
      then [NoIdentifier(CommandsOf(u, m)[0], host, m.name)] else []
  }

  function InstanceErrors(u: Universe): ClassName -> seq<ModelError> {
    (host: ClassName) => if u(host).aggregate then FlatMap(InstanceError(u, host), u(host).handlers) else []
  }

  function DuplicateErrors(u: Universe, hosts: seq<ClassName>): seq<ModelError> {
    Duplicates(OneHandler, Entries(u, OneHandler, hosts))
    + Duplicates(OneLoader, Entries(u, OneLoader, hosts))
    + Duplicates(OneSaver, Entries(u, OneSaver, hosts))
  }

  function InstanceHandlerErrors(u: Universe, hosts: seq<ClassName>): seq<ModelError> {
    FlatMap(InstanceErrors(u), hosts)
  }

  // ----- the whole validation --------------------------------------------------------------------------------

  function HostFilter(u: Universe): ClassName -> bool {
    (c: ClassName) => IsHost(u, c)
  }

  function Hosts(u: Universe, passedIn: seq<ClassName>): seq<ClassName> {
    Filter(HostFilter(u), passedIn)
  }

  function ReachedFrom(u: Universe): ClassName -> seq<ClassName> {
    (c: ClassName) => ReachedTypes(u, c)
  }

  /** The passed-in classes, then those their signatures reach, each once. */
  function ToValidate(u: Universe, passedIn: seq<ClassName>): seq<ClassName> {
    Deduplicated(passedIn + FlatMap(ReachedFrom(u), passedIn))
  }

  function ResultOf(u: Universe, passedIn: seq<ClassName>): ClassName -> seq<ClassResult> {
    (c: ClassName) =>
      var r := ResultFor(u, c, c in passedIn);
      if r.Some? then [r.value] else []
  }

  function Results(u: Universe, passedIn: seq<ClassName>): seq<ClassResult> {
    FlatMap(ResultOf(u, passedIn), ToValidate(u, passedIn))
  }

  function ValidateAll(u: Universe, classes: seq<ClassName>): Report {
    var passedIn := Deduplicated(classes);
    var hosts := Hosts(u, passedIn);
    Report(Results(u, passedIn), DuplicateErrors(u, hosts) + InstanceHandlerErrors(u, hosts))
  }
}
