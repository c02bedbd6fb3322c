/** validateAll as the scanner runs it: lists appended to, linked hash sets and grouping maps filled, in loops. */
module ReflectiveAnnotationScanner {
  import opened Spi
  import opened ModelOrdering
  import opened Scanner
  import opened ScannerGuarantees

  /** LinkedHashSet.addAll: what is new goes to the end, in order. */
  method AddAll(distinct: seq<ClassName>, more: seq<ClassName>, ghost added: seq<ClassName>)
    returns (all: seq<ClassName>)
    requires distinct == Deduplicated(added)
    ensures all == Deduplicated(added + more)
  {
    hide Deduplicated;
    all := distinct;
    assert added + more[..0] == added;
    for i := 0 to |more|
      invariant all == Deduplicated(added + more[..i])
    {
      assert added + more[..i + 1] == added + more[..i] + [more[i]];
      OneMoreClass(added + more[..i], more[i]);
      if more[i] !in all {
        all := all + [more[i]];
      }
    }
    assert more[..|more|] == more;
  }

  lemma OneMoreClass(added: seq<ClassName>, c: ClassName)
    ensures var distinct := Deduplicated(added);
      Deduplicated(added + [c]) == if c in distinct then distinct else distinct + [c]
  {
    assert (added + [c])[..|added|] == added;
  }

  method DistinctClasses(classes: seq<ClassName>) returns (distinct: seq<ClassName>)
    ensures distinct == Deduplicated(classes)
  {
    distinct := AddAll([], classes, []);
    assert [] + classes == classes;
  }

  method HostsAmong(u: Universe, passedIn: seq<ClassName>) returns (hosts: seq<ClassName>)
    ensures hosts == Hosts(u, passedIn)
  {
    hosts := [];
    ghost var rest := passedIn;
    for i := 0 to |passedIn|
      invariant rest == passedIn[i..] && hosts + Filter(HostFilter(u), rest) == Filter(HostFilter(u), passedIn)
    {
      if IsHost(u, passedIn[i]) {
        hosts := hosts + [passedIn[i]];
      }
      rest := rest[1..];
    }
  }

  method Reach(u: Universe, passedIn: seq<ClassName>) returns (toValidate: seq<ClassName>)
    requires NoDuplicates(passedIn)
    ensures toValidate == ToValidate(u, passedIn)
  {
    hide ReachedFrom, ReachedTypes, Deduplicated, FlatMap;
    toValidate := passedIn;
    DeduplicatedIdentity(passedIn);
    NothingReached(u, passedIn);
    for i := 0 to |passedIn|
      invariant toValidate == Deduplicated(passedIn + FlatMap(ReachedFrom(u), passedIn[..i]))
    {
      FlatMapLast(ReachedFrom(u), passedIn, i);
      ghost var before := passedIn + FlatMap(ReachedFrom(u), passedIn[..i]);
      var reached := ReachedFrom(u)(passedIn[i]);
      toValidate := AddAll(toValidate, reached, before);
      assert before + reached == passedIn + FlatMap(ReachedFrom(u), passedIn[..i + 1]);
    }
    assert passedIn[..|passedIn|] == passedIn;
  }

  lemma NothingReached(u: Universe, passedIn: seq<ClassName>)
    ensures passedIn + FlatMap(ReachedFrom(u), passedIn[..0]) == passedIn
  {
  }

  // ----- the grouping map ------------------------------------------------------------------------------------

  /** The TreeMap of the members found so far: its keys in order, and each key's members. */
  ghost predicate Groups(keys: seq<ClassName>, members: map<ClassName, seq<string>>, entries: seq<Entry>) {
    && keys == Keys(entries)
    && (forall k :: k in members <==> k in keys)
    && (forall k <- members :: members[k] == Group(entries, k))
  }

  /** computeIfAbsent(key, new list).add(member). */
  method AddEntry(keys: seq<ClassName>, members: map<ClassName, seq<string>>, e: Entry, ghost entries: seq<Entry>)
    returns (keys': seq<ClassName>, members': map<ClassName, seq<string>>)
    requires Groups(keys, members, entries)
    ensures Groups(keys', members', entries + [e])
  {
    hide Keys, Group;
    keys' := InsertKey(keys, e.key);
    KeysOfMore(entries, e);
    var list := if e.key in members then members[e.key] else [];
    if e.key !in members {
      NoGroup(entries, e.key);
    }
    members' := members[e.key := list + [e.member]];
    forall k | k in members' ensures members'[k] == Group(entries + [e], k) {
      GroupOfMore(entries, e, k);
    }
  }

  lemma GroupOfMore(entries: seq<Entry>, e: Entry, key: ClassName)
    ensures Group(entries + [e], key) == Group(entries, key) + (if e.key == key then [e.member] else [])
  {
    var all := entries + [e];
    FlatMapLast(MemberIf(key), all, |entries|);
    assert all[..|entries|] == entries && all[..|entries| + 1] == all;
  }

  lemma KeysOfMore(entries: seq<Entry>, e: Entry)
    ensures Keys(entries + [e]) == InsertKey(Keys(entries), e.key)
  {
    assert (entries + [e])[..|entries|] == entries;
  }

  lemma NoGroup(entries: seq<Entry>, key: ClassName)
    requires key !in Keys(entries)
    ensures Group(entries, key) == []
  {
    GroupOfTwo(entries, key);
    assert forall e <- entries :: e.key != key;
  }

  /** The members of every host, grouped by what they handle, load or save. */
  method GroupMembers(u: Universe, rule: Rule, hosts: seq<ClassName>)
    returns (keys: seq<ClassName>, members: map<ClassName, seq<string>>)
    ensures Groups(keys, members, Entries(u, rule, hosts))
  {
    hide Keys, Groups, MemberEntry;
    keys, members := [], map[];
    NoGroups();
    for i := 0 to |hosts|
      invariant Groups(keys, members, Entries(u, rule, hosts[..i]))
    {
      var declared := MembersFor(u, rule, hosts[i]);
      ghost var before := Entries(u, rule, hosts[..i]);
      assert before + [] == before;
      for j := 0 to |declared|
        invariant Groups(keys, members, before + FlatMap(EntryOf(u, rule, hosts[i]), declared[..j]))
      {
        FlatMapLast(EntryOf(u, rule, hosts[i]), declared, j);
        ghost var seen := before + FlatMap(EntryOf(u, rule, hosts[i]), declared[..j]);
        var found := MemberEntry(u, rule, hosts[i], declared[j]);
        AtMostOneEntry(u, rule, hosts[i], declared[j]);
        if found != [] {
          keys, members := AddEntry(keys, members, found[0], seen);
        }
        assert before + FlatMap(EntryOf(u, rule, hosts[i]), declared[..j + 1]) == seen + found;
        assert found == [] ==> seen + found == seen;
      }
      assert declared[..|declared|] == declared;
      FlatMapLast(HostEntries(u, rule), hosts, i);
    }
    assert hosts[..|hosts|] == hosts;
  }

  lemma NoGroups()
    ensures Groups([], map[], [])
  {
  }

  lemma AtMostOneEntry(u: Universe, rule: Rule, host: ClassName, m: Member)
    ensures var found := MemberEntry(u, rule, host, m); found == [] || found == [found[0]]
  {
  }

  /** One error per key with more than one member, in key order, the members sorted in place. */
  method ReportDuplicates(rule: Rule, keys: seq<ClassName>, members: map<ClassName, seq<string>>,
                          ghost entries: seq<Entry>)
    returns (errors: seq<ModelError>)
    requires Groups(keys, members, entries)
    ensures errors == Duplicates(rule, entries)
  {
    hide Keys, Group;
    errors := [];
    for i := 0 to |keys|
      invariant errors == FlatMap(ReportedAt(rule, entries), keys[..i])
    {
      assert keys[i] in keys;
      FlatMapLast(ReportedAt(rule, entries), keys, i);
      var list := members[keys[i]];
      if |list| > 1 {
        list := SortNames(list);
        errors := errors + [Duplicate(rule, keys[i], list)];
      }
    }
    assert keys[..|keys|] == keys;
  }

  method ValidateUnique(u: Universe, rule: Rule, hosts: seq<ClassName>, modelErrors: seq<ModelError>)
    returns (errors: seq<ModelError>)
    ensures errors == modelErrors + Duplicates(rule, Entries(u, rule, hosts))
  {
    var keys, members := GroupMembers(u, rule, hosts);
    var duplicates := ReportDuplicates(rule, keys, members, Entries(u, rule, hosts));
    errors := modelErrors + duplicates;
  }

  method ValidateInstanceHandlers(u: Universe, hosts: seq<ClassName>, modelErrors: seq<ModelError>)
    returns (errors: seq<ModelError>)
    ensures errors == modelErrors + InstanceHandlerErrors(u, hosts)
  {
    hide InstanceError;
    errors := modelErrors;
    for i := 0 to |hosts|
      invariant errors == modelErrors + FlatMap(InstanceErrors(u), hosts[..i])
    {
      FlatMapLast(InstanceErrors(u), hosts, i);
      if u(hosts[i]).aggregate {
        var found := InstanceHandlersOf(u, hosts[i]);
        errors := errors + found;
      }
    }
    assert hosts[..|hosts|] == hosts;
  }

  method InstanceHandlersOf(u: Universe, host: ClassName) returns (errors: seq<ModelError>)
    ensures errors == FlatMap(InstanceError(u, host), u(host).handlers)
  {
    errors := [];
    var handlers := u(host).handlers;
    for i := 0 to |handlers|
      invariant errors == FlatMap(InstanceError(u, host), handlers[..i])
    {
      FlatMapLast(InstanceError(u, host), handlers, i);
      var commands := CommandsOf(u, handlers[i]);
      if !handlers[i].isConstructor && !handlers[i].isStatic && |commands| == 1 && u(commands[0]).identifiers == 0 {
        errors := errors + [NoIdentifier(commands[0], host, handlers[i].name)];
      }
    }
    assert handlers[..|handlers|] == handlers;
  }

  method ClassResults(u: Universe, passedIn: seq<ClassName>, toValidate: seq<ClassName>)
    returns (results: seq<ClassResult>)
    requires toValidate == ToValidate(u, passedIn)
    ensures results == Results(u, passedIn)
  {
    hide ResultFor;
    results := [];
    for i := 0 to |toValidate|
      invariant results == FlatMap(ResultOf(u, passedIn), toValidate[..i])
    {
      FlatMapLast(ResultOf(u, passedIn), toValidate, i);
      var result := ResultFor(u, toValidate[i], toValidate[i] in passedIn);
      if result.Some? {
        results := results + [result.value];
      }
    }
    assert toValidate[..|toValidate|] == toValidate;
  }

  method Validate(u: Universe, classes: seq<ClassName>) returns (report: Report)
    ensures report == ValidateAll(u, classes)
  {
    hide Hosts, Results, Duplicates, Entries, InstanceHandlerErrors, Deduplicated, ToValidate;
    var passedIn := DistinctClasses(classes);
    var hosts := HostsAmong(u, passedIn);
    var toValidate := Reach(u, passedIn);
    var results := ClassResults(u, passedIn, toValidate);
    var errors := ValidateUnique(u, OneHandler, hosts, []);
    errors := ValidateUnique(u, OneLoader, hosts, errors);
    errors := ValidateUnique(u, OneSaver, hosts, errors);
    errors := ValidateInstanceHandlers(u, hosts, errors);
    report := Report(results, errors);
  }
}
