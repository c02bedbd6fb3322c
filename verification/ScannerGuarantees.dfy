/** What validateAll promises: order does not matter, each duplicate is found, each class is reported on once. */
module ScannerGuarantees {
  import opened Spi
  import opened ModelOrdering
  import opened Scanner

  // ----- flattening ------------------------------------------------------------------------------------------

  lemma Associative<T>(x: seq<T>, y: seq<T>, z: seq<T>)
    ensures x + (y + z) == (x + y) + z
  {
  }

  lemma {:induction false} FlatMapConcat<S, T>(f: S -> seq<T>, a: seq<S>, b: seq<S>)
    ensures FlatMap(f, a + b) == FlatMap(f, a) + FlatMap(f, b)
  {
    if a == [] {
      assert a + b == b;
    } else {
      FlatMapConcat(f, a[1..], b);
      assert (a + b)[1..] == a[1..] + b && (a + b)[0] == a[0];
      Associative(f(a[0]), FlatMap(f, a[1..]), FlatMap(f, b));
    }
  }

  lemma FlatMapLast<S, T>(f: S -> seq<T>, s: seq<S>, n: nat)
    requires n < |s|
    ensures FlatMap(f, s[..n + 1]) == FlatMap(f, s[..n]) + f(s[n])
  {
    FlatMapConcat(f, s[..n], [s[n]]);
    assert s[..n + 1] == s[..n] + [s[n]];
    assert [s[n]][1..] == [];
    assert FlatMap(f, [s[n]]) == f(s[n]) + FlatMap(f, []) == f(s[n]);
  }

  lemma {:induction false} FlatMapMember<S, T>(f: S -> seq<T>, s: seq<S>, y: T)
    ensures y in FlatMap(f, s) <==> exists x <- s :: y in f(x)
  {
    if s != [] {
      FlatMapMember(f, s[1..], y);
      assert s == [s[0]] + s[1..];
    }
  }

  lemma {:induction false} FlatMapSame<S, T>(f: S -> seq<T>, g: S -> seq<T>, s: seq<S>)
    requires forall x <- s :: f(x) == g(x)
    ensures FlatMap(f, s) == FlatMap(g, s)
  {
    if s != [] {
      assert s[0] in s;
      FlatMapSame(f, g, s[1..]);
    }
  }

  lemma WithoutOne<S>(a: seq<S>, b: seq<S>, i: nat)
    requires a != [] && i < |b| && b[i] == a[0] && multiset(a) == multiset(b)
    ensures multiset(a[1..]) == multiset(b[..i] + b[i + 1..])
  {
    assert a == [a[0]] + a[1..];
    assert b == b[..i] + [b[i]] + b[i + 1..];
    assert multiset(a) == multiset{a[0]} + multiset(a[1..]);
    assert multiset(b) == multiset(b[..i]) + multiset{b[i]} + multiset(b[i + 1..]);
    assert multiset(b[..i] + b[i + 1..]) == multiset(b) - multiset{b[i]};
  }

  /** Flattening a permutation gives a permutation. */
  lemma {:induction false} FlatMapPermuted<S, T>(f: S -> seq<T>, a: seq<S>, b: seq<S>)
    requires multiset(a) == multiset(b)
    ensures multiset(FlatMap(f, a)) == multiset(FlatMap(f, b))
  {
    assert |a| == |multiset(a)| && |b| == |multiset(b)|;
    if a != [] {
      assert a[0] in multiset(a) && a[0] in b;
      var i :| 0 <= i < |b| && b[i] == a[0];
      var front, back := b[..i], b[i + 1..];
      assert b == front + ([b[i]] + back);
      WithoutOne(a, b, i);
      FlatMapPermuted(f, a[1..], front + back);
      FlatMapConcat(f, front, back);
      FlatMapConcat(f, front, [b[i]] + back);
      assert ([b[i]] + back)[1..] == back;
    }
  }

  // ----- order does not matter -------------------------------------------------------------------------------

  lemma {:induction false} KeysInOrder(entries: seq<Entry>)
    ensures InOrder(Keys(entries))
  {
    if entries != [] {
      KeysInOrder(entries[..|entries| - 1]);
      InsertKeyInOrder(Keys(entries[..|entries| - 1]), entries[|entries| - 1].key);
    }
  }

  /** The duplicates reported depend on which members there are, not on the order they were found in. */
  lemma DuplicatesForgetOrder(rule: Rule, a: seq<Entry>, b: seq<Entry>)
    requires multiset(a) == multiset(b)
    ensures Duplicates(rule, a) == Duplicates(rule, b)
  {
    hide Keys, SortNames;
    forall e ensures e in a <==> e in b {
      assert e in multiset(a) <==> e in multiset(b);
    }
    KeysInOrder(a);
    KeysInOrder(b);
    InOrderUnique(Keys(a), Keys(b));
    forall key | key in Keys(a) ensures ReportedAt(rule, a)(key) == ReportedAt(rule, b)(key) {
      FlatMapPermuted(MemberIf(key), a, b);
      var m, n := Group(a, key), Group(b, key);
      assert |m| == |multiset(m)| && |n| == |multiset(n)|;
      SortForgetsOrder(m, n);
    }
    FlatMapSame(ReportedAt(rule, a), ReportedAt(rule, b), Keys(a));
  }

  lemma {:induction false} FilterKeepsDistinct<T(!new)>(p: T -> bool, s: seq<T>)
    requires NoDuplicates(s)
    ensures NoDuplicates(Filter(p, s))
  {
    if s != [] {
      FilterKeepsDistinct(p, s[1..]);
      assert s[0] !in s[1..];
    }
  }

  predicate SameClasses(a: seq<ClassName>, b: seq<ClassName>) {
    (forall c <- a :: c in b) && (forall c <- b :: c in a)
  }

  lemma HostsPermuted(u: Universe, a: seq<ClassName>, b: seq<ClassName>)
    requires SameClasses(a, b)
    ensures multiset(Hosts(u, Deduplicated(a))) == multiset(Hosts(u, Deduplicated(b)))
  {
    var p, q := Deduplicated(a), Deduplicated(b);
    FilterKeepsDistinct(HostFilter(u), p);
    FilterKeepsDistinct(HostFilter(u), q);
    SameElements(Hosts(u, p), Hosts(u, q));
  }

  lemma EntriesPermuted(u: Universe, rule: Rule, a: seq<ClassName>, b: seq<ClassName>)
    requires multiset(a) == multiset(b)
    ensures Duplicates(rule, Entries(u, rule, a)) == Duplicates(rule, Entries(u, rule, b))
  {
    hide Duplicates, HostEntries;
    FlatMapPermuted(HostEntries(u, rule), a, b);
    DuplicatesForgetOrder(rule, Entries(u, rule, a), Entries(u, rule, b));
  }

  lemma ResultsPermuted(u: Universe, a: seq<ClassName>, b: seq<ClassName>)
    requires SameClasses(a, b)
    ensures multiset(Results(u, Deduplicated(a))) == multiset(Results(u, Deduplicated(b)))
  {
    hide ResultFor, ReachedTypes;
    var p, q := Deduplicated(a), Deduplicated(b);
    forall c ensures c in ToValidate(u, p) <==> c in ToValidate(u, q) {
      FlatMapMember(ReachedFrom(u), p, c);
      FlatMapMember(ReachedFrom(u), q, c);
    }
    SameElements(ToValidate(u, p), ToValidate(u, q));
    FlatMapPermuted(ResultOf(u, p), ToValidate(u, p), ToValidate(u, q));
    FlatMapSame(ResultOf(u, p), ResultOf(u, q), ToValidate(u, q));
  }

  /**
   * The same classes in any order, repeated or not: the duplicate errors are the identical list; the errors of
   * instance handlers and the class results are the same, each as often, in some order.
   */
  lemma OrderDoesNotMatter(u: Universe, a: seq<ClassName>, b: seq<ClassName>)
    requires SameClasses(a, b)
    ensures var p, q := Hosts(u, Deduplicated(a)), Hosts(u, Deduplicated(b));
      && DuplicateErrors(u, p) == DuplicateErrors(u, q)
      && multiset(InstanceHandlerErrors(u, p)) == multiset(InstanceHandlerErrors(u, q))
      && multiset(ValidateAll(u, a).modelErrors) == multiset(ValidateAll(u, b).modelErrors)
      && multiset(ValidateAll(u, a).classResults) == multiset(ValidateAll(u, b).classResults)
  {
    hide Duplicates, Entries, Hosts, Results, InstanceErrors;
    HostsPermuted(u, a, b);
    var p, q := Hosts(u, Deduplicated(a)), Hosts(u, Deduplicated(b));
    EntriesPermuted(u, OneHandler, p, q);
    EntriesPermuted(u, OneLoader, p, q);
    EntriesPermuted(u, OneSaver, p, q);
    FlatMapPermuted(InstanceErrors(u), p, q);
    ResultsPermuted(u, a, b);
  }

  // ----- each duplicate is found -----------------------------------------------------------------------------

  /** More than one member of a key: two entries with that key. */
  lemma {:induction false} GroupOfTwo(entries: seq<Entry>, key: ClassName)
    ensures |Group(entries, key)| > 1 <==>
        exists i, j :: 0 <= i < j < |entries| && entries[i].key == key && entries[j].key == key
    ensures |Group(entries, key)| > 0 <==> exists i :: 0 <= i < |entries| && entries[i].key == key
  {
    if entries != [] {
      var rest := entries[1..];
      GroupOfTwo(rest, key);
      assert |Group(entries, key)| == (if entries[0].key == key then 1 else 0) + |Group(rest, key)|;
      if |Group(entries, key)| > 1 {
        if entries[0].key == key {
          var j :| 0 <= j < |rest| && rest[j].key == key;
          assert entries[0].key == key && entries[j + 1].key == key;
        } else {
          var i, j :| 0 <= i < j < |rest| && rest[i].key == key && rest[j].key == key;
          assert entries[i + 1].key == key && entries[j + 1].key == key;
        }
      }
      if |Group(entries, key)| > 0 && entries[0].key != key {
        var i :| 0 <= i < |rest| && rest[i].key == key;
        assert entries[i + 1].key == key;
      }
      forall i, j | 0 <= i < j < |entries| && entries[i].key == key && entries[j].key == key
        ensures |Group(entries, key)| > 1
      {
        assert rest[j - 1] == entries[j];
        if i > 0 {
          assert rest[i - 1] == entries[i];
        }
      }
      forall i | 0 <= i < |entries| && entries[i].key == key ensures |Group(entries, key)| > 0 {
        if i > 0 {
          assert rest[i - 1] == entries[i];
        }
      }
    }
  }

  /** A type is reported iff it has two well-formed members across the hosts, and then with all of them, in order. */
  lemma DuplicateIff(rule: Rule, entries: seq<Entry>, key: ClassName, members: seq<string>)
    ensures Duplicate(rule, key, members) in Duplicates(rule, entries) <==>
              && (exists i, j :: 0 <= i < j < |entries| && entries[i].key == key && entries[j].key == key)
              && Ascending(members) && multiset(members) == multiset(Group(entries, key))
  {
    hide SortNames, Keys, Group;
    var error := Duplicate(rule, key, members);
    FlatMapMember(ReportedAt(rule, entries), Keys(entries), error);
    GroupOfTwo(entries, key);
    SortNamesAscending(Group(entries, key));
    if Ascending(members) && multiset(members) == multiset(Group(entries, key)) {
      AscendingUnique(members, SortNames(Group(entries, key)));
    }
    forall k | error in ReportedAt(rule, entries)(k) ensures k == key {
    }
    assert (exists k <- Keys(entries) :: error in ReportedAt(rule, entries)(k)) <==>
        key in Keys(entries) && error in ReportedAt(rule, entries)(key);
  }

  /** Nothing is reported iff each command, or aggregate, has at most one well-formed handler, loader or saver. */
  lemma NoDuplicatesIff(rule: Rule, entries: seq<Entry>)
    ensures Duplicates(rule, entries) == [] <==> forall i, j :: 0 <= i < j < |entries| ==>
        entries[i].key != entries[j].key
  {
    hide SortNames, Keys, Group, Duplicates;
    forall i, j | 0 <= i < j < |entries| && entries[i].key == entries[j].key ensures Duplicates(rule, entries) != [] {
      SortNamesAscending(Group(entries, entries[i].key));
      DuplicateIff(rule, entries, entries[i].key, SortNames(Group(entries, entries[i].key)));
    }
    if Duplicates(rule, entries) != [] {
      var error := Duplicates(rule, entries)[0];
      OnlyDuplicates(rule, entries, error);
      DuplicateIff(rule, entries, error.type_, error.members);
    }
  }

  lemma OnlyDuplicates(rule: Rule, entries: seq<Entry>, error: ModelError)
    requires error in Duplicates(rule, entries)
    ensures error.Duplicate? && error.rule == rule
  {
    FlatMapMember(ReportedAt(rule, entries), Keys(entries), error);
  }

  // ----- ... across the hosts of the classes passed in -------------------------------------------------------

  /** The member is a well-formed handler of the command, or loader or saver of the aggregate. */
  predicate Serves(u: Universe, rule: Rule, m: Member, key: ClassName) {
    match rule
    case OneHandler => CommandsOf(u, m) == [key]
    case OneLoader => |m.parameters| == 1 && m.result == key && u(key).aggregate
    case OneSaver => m.parameters == [key] && u(key).aggregate
  }

  /** A member, by the class that declares it and its place there. */
  datatype Place = Place(host: ClassName, index: nat)

  predicate ServedAt(u: Universe, classes: seq<ClassName>, rule: Rule, key: ClassName, p: Place) {
    && p.host in classes && IsHost(u, p.host)
    && p.index < |MembersFor(u, rule, p.host)| && Serves(u, rule, MembersFor(u, rule, p.host)[p.index], key)
  }

  ghost predicate ServedTwice(u: Universe, classes: seq<ClassName>, rule: Rule, key: ClassName) {
    exists p, q :: p != q && ServedAt(u, classes, rule, key, p) && ServedAt(u, classes, rule, key, q)
  }

  function NameIf(u: Universe, rule: Rule, host: ClassName, key: ClassName): Member -> seq<string> {
    (m: Member) => if Serves(u, rule, m, key) then [host.simple + "." + m.name] else []
  }

  /** How the host's members that serve key are named in a report. */
  function ServingNames(u: Universe, rule: Rule, key: ClassName): ClassName -> seq<string> {
    (host: ClassName) => FlatMap(NameIf(u, rule, host, key), MembersFor(u, rule, host))
  }

  lemma {:induction false} FlatMapTwice<R, S, T>(f: R -> seq<S>, g: S -> seq<T>, h: R -> seq<T>, s: seq<R>)
    requires forall x <- s :: h(x) == FlatMap(g, f(x))
    ensures FlatMap(g, FlatMap(f, s)) == FlatMap(h, s)
  {
    if s != [] {
      assert s[0] in s;
      FlatMapTwice(f, g, h, s[1..]);
      FlatMapConcat(g, f(s[0]), FlatMap(f, s[1..]));
    }
  }

  lemma EntryServes(u: Universe, rule: Rule, host: ClassName, m: Member, key: ClassName)
    ensures FlatMap(MemberIf(key), MemberEntry(u, rule, host, m)) == NameIf(u, rule, host, key)(m)
  {
    var found := MemberEntry(u, rule, host, m);
    if found != [] {
      assert found == [found[0]] && found[1..] == [];
      assert FlatMap(MemberIf(key), found) == MemberIf(key)(found[0]) + FlatMap(MemberIf(key), []) ==
          MemberIf(key)(found[0]);
    }
  }

  /** The members grouped under a key are those that serve it. */
  lemma GroupServes(u: Universe, rule: Rule, hosts: seq<ClassName>, key: ClassName)
    ensures Group(Entries(u, rule, hosts), key) == FlatMap(ServingNames(u, rule, key), hosts)
  {
    hide FlatMap, MemberEntry, NameIf, MemberIf;
    forall host ensures ServingNames(u, rule, key)(host) == FlatMap(MemberIf(key), HostEntries(u, rule)(host)) {
      forall m ensures NameIf(u, rule, host, key)(m) == FlatMap(MemberIf(key), EntryOf(u, rule, host)(m)) {
        EntryServes(u, rule, host, m, key);
      }
      FlatMapTwice(EntryOf(u, rule, host), MemberIf(key), NameIf(u, rule, host, key), MembersFor(u, rule, host));
    }
    FlatMapTwice(HostEntries(u, rule), MemberIf(key), ServingNames(u, rule, key), hosts);
  }

  lemma {:induction false} FlatMapSome<S, T>(f: S -> seq<T>, s: seq<S>)
    ensures FlatMap(f, s) != [] <==> exists i :: 0 <= i < |s| && f(s[i]) != []
  {
    if s != [] {
      FlatMapSome(f, s[1..]);
      if i :| 0 <= i < |s[1..]| && f(s[1..][i]) != [] {
        assert f(s[i + 1]) != [];
      }
      if i :| 0 < i < |s| && f(s[i]) != [] {
        assert f(s[1..][i - 1]) != [];
      }
    }
  }

  /** Two results come from one element, or from two. */
  lemma {:induction false} FlatMapTwo<S, T>(f: S -> seq<T>, s: seq<S>)
    ensures |FlatMap(f, s)| > 1 <==>
              || (exists i :: 0 <= i < |s| && |f(s[i])| > 1)
              || (exists i, j :: 0 <= i < j < |s| && f(s[i]) != [] && f(s[j]) != [])
  {
    if s != [] {
      var rest := s[1..];
      FlatMapTwo(f, rest);
      FlatMapSome(f, rest);
      assert forall i :: 0 <= i < |rest| ==> rest[i] == s[i + 1];
      if i :| 0 <= i < |rest| && |f(rest[i])| > 1 {
        assert |f(s[i + 1])| > 1;
      }
      if i, j :| 0 <= i < j < |rest| && f(rest[i]) != [] && f(rest[j]) != [] {
        assert f(s[i + 1]) != [] && f(s[j + 1]) != [];
      }
      if i :| 0 <= i < |rest| && f(rest[i]) != [] {
        assert f(s[i + 1]) != [];
      }
      if i :| 0 < i < |s| && |f(s[i])| > 1 {
        assert |f(rest[i - 1])| > 1;
      }
      if i, j :| 0 <= i < j < |s| && f(s[i]) != [] && f(s[j]) != [] {
        assert f(rest[j - 1]) != [];
        if i > 0 {
          assert f(rest[i - 1]) != [];
        }
      }
    }
  }

  lemma HostServes(u: Universe, classes: seq<ClassName>, rule: Rule, key: ClassName, host: ClassName)
    requires host in classes && IsHost(u, host)
    ensures ServingNames(u, rule, key)(host) != [] <==> exists i: nat :: ServedAt(u, classes, rule, key, Place(host, i))
    ensures |ServingNames(u, rule, key)(host)| > 1 <==>
              exists i: nat, j: nat :: i < j && ServedAt(u, classes, rule, key, Place(host, i)) &&
                  ServedAt(u, classes, rule, key, Place(host, j))
  {
    hide FlatMap, Serves;
    var f, members := NameIf(u, rule, host, key), MembersFor(u, rule, host);
    FlatMapSome(f, members);
    FlatMapTwo(f, members);
    forall i: nat ensures ServedAt(u, classes, rule, key, Place(host, i)) <==> i < |members| && f(members[i]) != [] {
    }
  }

  /** A key is grouped with two members iff two members across the hosts serve it. */
  lemma ServedTwiceIff(u: Universe, classes: seq<ClassName>, rule: Rule, key: ClassName)
    ensures |FlatMap(ServingNames(u, rule, key), Hosts(u, Deduplicated(classes)))| > 1 <==>
        ServedTwice(u, classes, rule, key)
  {
    hide ServedAt, FlatMap, ServingNames, ServedTwice;
    var hosts, f := Hosts(u, Deduplicated(classes)), ServingNames(u, rule, key);
    HostsOnce(u, classes);
    FlatMapTwo(f, hosts);
    forall host | host in hosts
      ensures f(host) != [] <==> exists i: nat :: ServedAt(u, classes, rule, key, Place(host, i))
      ensures |f(host)| > 1 <==>
                exists i: nat, j: nat :: i < j && ServedAt(u, classes, rule, key, Place(host, i)) &&
                    ServedAt(u, classes, rule, key, Place(host, j))
    {
      HostServes(u, classes, rule, key, host);
    }
    TwicePlaces(u, classes, rule, key, hosts, f);
  }

  lemma HostsOnce(u: Universe, classes: seq<ClassName>)
    ensures var hosts := Hosts(u, Deduplicated(classes));
      NoDuplicates(hosts) && forall c :: c in hosts <==> c in classes && IsHost(u, c)
  {
    FilterKeepsDistinct(HostFilter(u), Deduplicated(classes));
  }

  lemma PlaceInHosts(u: Universe, classes: seq<ClassName>, rule: Rule, key: ClassName, hosts: seq<ClassName>,
                     p: Place)
    returns (i: nat)
    requires forall c :: c in hosts <==> c in classes && IsHost(u, c)
    requires ServedAt(u, classes, rule, key, p)
    ensures i < |hosts| && hosts[i] == p.host
  {
    i :| 0 <= i < |hosts| && hosts[i] == p.host;
  }

  lemma TwicePlaces(u: Universe, classes: seq<ClassName>, rule: Rule, key: ClassName, hosts: seq<ClassName>,
                    f: ClassName -> seq<string>)
    requires NoDuplicates(hosts) && forall c :: c in hosts <==> c in classes && IsHost(u, c)
    requires forall host <- hosts :: f(host) != [] <==> exists i: nat :: ServedAt(u, classes, rule, key, Place(host, i))
    requires forall host <- hosts :: |f(host)| > 1 <==>
               exists i: nat, j: nat :: i < j && ServedAt(u, classes, rule, key, Place(host, i)) &&
                   ServedAt(u, classes, rule, key, Place(host, j))
    ensures ServedTwice(u, classes, rule, key) <==>
              || (exists i :: 0 <= i < |hosts| && |f(hosts[i])| > 1)
              || (exists i, j :: 0 <= i < j < |hosts| && f(hosts[i]) != [] && f(hosts[j]) != [])
  {
    hide ServedAt;
    if p, q :| p != q && ServedAt(u, classes, rule, key, p) && ServedAt(u, classes, rule, key, q) {
      var i := PlaceInHosts(u, classes, rule, key, hosts, p);
      var j := PlaceInHosts(u, classes, rule, key, hosts, q);
      assert p == Place(hosts[i], p.index) && q == Place(hosts[j], q.index);
      assert hosts[i] in hosts && hosts[j] in hosts;
      if i == j {
        assert p.index < q.index || q.index < p.index;
        assert |f(hosts[i])| > 1;
      } else {
        assert f(hosts[i]) != [] && f(hosts[j]) != [];
      }
    }
    if i :| 0 <= i < |hosts| && |f(hosts[i])| > 1 {
      assert hosts[i] in hosts;
      var a: nat, b: nat :| a < b && ServedAt(u, classes, rule, key, Place(hosts[i], a)) &&
          ServedAt(u, classes, rule, key, Place(hosts[i], b));
      assert Place(hosts[i], a) != Place(hosts[i], b);
    }
    if i, j :| 0 <= i < j < |hosts| && f(hosts[i]) != [] && f(hosts[j]) != [] {
      assert hosts[i] in hosts && hosts[j] in hosts;
      var a: nat :| ServedAt(u, classes, rule, key, Place(hosts[i], a));
      var b: nat :| ServedAt(u, classes, rule, key, Place(hosts[j], b));
      assert Place(hosts[i], a) != Place(hosts[j], b);
    }
  }

  lemma OneRuleIff(u: Universe, classes: seq<ClassName>, rule: Rule, error: ModelError)
    ensures error in Duplicates(rule, Entries(u, rule, Hosts(u, Deduplicated(classes)))) <==>
              && error.Duplicate? && error.rule == rule && ServedTwice(u, classes, rule, error.type_) &&
                    Ascending(error.members)
              && multiset(error.members) ==
                    multiset(FlatMap(ServingNames(u, rule, error.type_), Hosts(u, Deduplicated(classes))))
  {
    hide Duplicates, Entries, Hosts, Group, FlatMap, ServingNames, ServedTwice, Deduplicated;
    var hosts := Hosts(u, Deduplicated(classes));
    var entries := Entries(u, rule, hosts);
    if error in Duplicates(rule, entries) {
      OnlyDuplicates(rule, entries, error);
    }
    if error.Duplicate? && error.rule == rule {
      DuplicateIff(rule, entries, error.type_, error.members);
      GroupOfTwo(entries, error.type_);
      GroupServes(u, rule, hosts, error.type_);
      ServedTwiceIff(u, classes, rule, error.type_);
    }
  }

  /**
   * The report names a command or aggregate as having a second handler, loader or saver iff two well-formed members
   * across the passed-in hosts serve it, and then lists every member that does, in ascending order.
   */
  lemma ReportedDuplicateIff(u: Universe, classes: seq<ClassName>, error: ModelError)
    requires error.Duplicate?
    ensures error in ValidateAll(u, classes).modelErrors <==>
              && ServedTwice(u, classes, error.rule, error.type_) && Ascending(error.members)
              && multiset(error.members)
                 == multiset(FlatMap(ServingNames(u, error.rule, error.type_), Hosts(u, Deduplicated(classes))))
  {
    hide Duplicates, Entries, Hosts, FlatMap, ServingNames, ServedTwice, Deduplicated, InstanceHandlerErrors, Results;
    var hosts := Hosts(u, Deduplicated(classes));
    forall rule: Rule ensures error in Duplicates(rule, Entries(u, rule, hosts)) <==>
        error.rule == rule && ServedTwice(u, classes, rule, error.type_) && Ascending(error.members)
        && multiset(error.members) == multiset(FlatMap(ServingNames(u, rule, error.type_), hosts))
    {
      OneRuleIff(u, classes, rule, error);
    }
    InstanceErrorIff(u, hosts, error);
  }

  /**
   * No duplicate is reported iff every command has at most one well-formed handler, every aggregate one loader and
   * saver.
   */
  lemma NoReportedDuplicateIff(u: Universe, classes: seq<ClassName>)
    ensures DuplicateErrors(u, Hosts(u, Deduplicated(classes))) == [] <==>
              forall rule, key :: !ServedTwice(u, classes, rule, key)
  {
    hide Duplicates, Entries, Hosts, FlatMap, ServingNames, ServedTwice, Deduplicated;
    var hosts := Hosts(u, Deduplicated(classes));
    forall rule, key | ServedTwice(u, classes, rule, key) ensures Duplicates(rule, Entries(u, rule, hosts)) != [] {
      var names := FlatMap(ServingNames(u, rule, key), hosts);
      SortNamesAscending(names);
      OneRuleIff(u, classes, rule, Duplicate(rule, key, SortNames(names)));
    }
    forall rule | Duplicates(rule, Entries(u, rule, hosts)) != []
      ensures exists key :: ServedTwice(u, classes, rule, key)
    {
      var error := Duplicates(rule, Entries(u, rule, hosts))[0];
      OneRuleIff(u, classes, rule, error);
      assert ServedTwice(u, classes, rule, error.type_);
    }
    EachRule(u, hosts);
  }

  lemma EachRule(u: Universe, hosts: seq<ClassName>)
    ensures DuplicateErrors(u, hosts) == [] <==> forall rule: Rule :: Duplicates(rule, Entries(u, rule, hosts)) == []
  {
    hide Duplicates, Entries;
    if DuplicateErrors(u, hosts) == [] {
      forall rule: Rule ensures Duplicates(rule, Entries(u, rule, hosts)) == [] {
        match rule
        case OneHandler =>
        case OneLoader =>
        case OneSaver =>
      }
    }
  }

  lemma {:induction false} FlatMapEmpty<S, T>(f: S -> seq<T>, s: seq<S>)
    ensures FlatMap(f, s) == [] <==> forall x <- s :: f(x) == []
  {
    if s != [] {
      FlatMapEmpty(f, s[1..]);
      assert s == [s[0]] + s[1..];
    }
  }

  /** An instance handler is reported iff an aggregate host has it and its one command has no identifier. */
  lemma InstanceErrorIff(u: Universe, hosts: seq<ClassName>, error: ModelError)
    ensures error in InstanceHandlerErrors(u, hosts) <==>
              error.NoIdentifier? && error.host in hosts && u(error.host).aggregate && u(error.command).identifiers == 0
              && exists m <- u(error.host).handlers ::
                   m.name == error.handler && !m.isConstructor && !m.isStatic && CommandsOf(u, m) == [error.command]
  {
    hide CommandsOf;
    FlatMapMember(InstanceErrors(u), hosts, error);
    forall host ensures error in InstanceErrors(u)(host) <==>
        u(host).aggregate && exists m <- u(host).handlers :: error in InstanceError(u, host)(m) {
      FlatMapMember(InstanceError(u, host), u(host).handlers, error);
    }
    forall host, m ensures error in InstanceError(u, host)(m) <==>
        error.NoIdentifier? && error.host == host && error.handler == m.name && u(error.command).identifiers == 0
        && !m.isConstructor && !m.isStatic && CommandsOf(u, m) == [error.command] {
    }
  }

  /**
   * A passed-in host passes iff each handler takes one command and each loader, saver and identifier is well
   * formed.
   */
  lemma HostPassesIff(u: Universe, c: ClassName)
    requires IsHost(u, c)
    ensures ResultFor(u, c, true) == Some(ClassResult(c, [])) <==>
              && (forall m <- u(c).handlers :: |CommandsOf(u, m)| == 1)
              && (forall m <- u(c).loaders :: WellFormedLoader(u, m))
              && (forall m <- u(c).savers :: WellFormedSaver(u, m))
              && (u(c).aggregate || u(c).event.Some? ==> u(c).identifiers == 1)
              && (u(c).command ==> u(c).identifiers <= 1)
              && (u(c).event.Some? ==> u(u(c).event.value).aggregate)
  {
    hide CommandsOf, WellFormedLoader, WellFormedSaver;
    FlatMapEmpty(HandlerError(u), u(c).handlers);
    FlatMapEmpty(LoaderError(u), u(c).loaders);
    FlatMapEmpty(SaverError(u), u(c).savers);
  }

  // ----- each class is reported on once ----------------------------------------------------------------------

  /** A class has a result iff it is a passed-in saga or host, or a reached or passed-in type with identifier errors. */
  lemma ResultIff(u: Universe, classes: seq<ClassName>, r: ClassResult)
    ensures var passedIn := Deduplicated(classes);
      r in ValidateAll(u, classes).classResults <==>
        && (r.type_ in classes || exists c <- classes :: r.type_ in ReachedTypes(u, c))
        && ResultFor(u, r.type_, r.type_ in classes) == Some(r)
  {
    hide ResultFor, ReachedTypes;
    var passedIn := Deduplicated(classes);
    FlatMapMember(ResultOf(u, passedIn), ToValidate(u, passedIn), r);
    FlatMapMember(ReachedFrom(u), passedIn, r.type_);
    forall c | r in ResultOf(u, passedIn)(c) ensures c == r.type_ {
      ResultNamesItsClass(u, c, c in passedIn);
    }
    assert (exists c <- ToValidate(u, passedIn) :: r in ResultOf(u, passedIn)(c))
           <==> r.type_ in ToValidate(u, passedIn) && r in ResultOf(u, passedIn)(r.type_);
  }

  lemma ResultNamesItsClass(u: Universe, c: ClassName, passedIn: bool)
    ensures ResultFor(u, c, passedIn).Some? ==> ResultFor(u, c, passedIn).value.type_ == c
    ensures passedIn && (u(c).saga || IsHost(u, c)) ==> ResultFor(u, c, passedIn).Some?
  {
  }

  /** Every passed-in saga and host has exactly one result, and no class has two. */
  lemma OneResultEach(u: Universe, classes: seq<ClassName>)
    ensures var results := ValidateAll(u, classes).classResults;
      && (forall i, j :: 0 <= i < j < |results| ==> results[i].type_ != results[j].type_)
      && (forall c <- classes :: u(c).saga || IsHost(u, c) ==> exists i :: 0 <= i < |results| && results[i].type_ == c)
  {
    hide ValidateAll;
    ReportedOnce(u, classes);
    forall c | c in classes && (u(c).saga || IsHost(u, c))
      ensures exists i ::
        0 <= i < |ValidateAll(u, classes).classResults| && ValidateAll(u, classes).classResults[i].type_ == c
    {
      HasResult(u, classes, c);
    }
  }

  lemma ReportedOnce(u: Universe, classes: seq<ClassName>)
    ensures var results := ValidateAll(u, classes).classResults;
      forall i, j :: 0 <= i < j < |results| ==> results[i].type_ != results[j].type_
  {
    hide ResultFor, ReachedTypes, FlatMap, DuplicateErrors, InstanceHandlerErrors;
    var passedIn := Deduplicated(classes);
    ResultsDistinct(u, passedIn, ToValidate(u, passedIn), ValidateAll(u, classes).classResults);
  }

  lemma HasResult(u: Universe, classes: seq<ClassName>, c: ClassName)
    requires c in classes && (u(c).saga || IsHost(u, c))
    ensures exists i ::
      0 <= i < |ValidateAll(u, classes).classResults| && ValidateAll(u, classes).classResults[i].type_ == c
  {
    hide ResultFor, ReachedTypes, ValidateAll;
    ResultNamesItsClass(u, c, true);
    var r := ResultFor(u, c, true).value;
    ResultIff(u, classes, r);
    var results := ValidateAll(u, classes).classResults;
    var i :| 0 <= i < |results| && results[i] == r;
  }

  lemma {:induction false} ResultsDistinct(u: Universe, passedIn: seq<ClassName>, s: seq<ClassName>,
                                           results: seq<ClassResult>)
    requires NoDuplicates(s) && results == FlatMap(ResultOf(u, passedIn), s)
    ensures forall i, j :: 0 <= i < j < |results| ==> results[i].type_ != results[j].type_
    ensures forall i :: 0 <= i < |results| ==> results[i].type_ in s
    decreases s
  {
    hide ResultFor;
    if s != [] {
      var head, tail := ResultOf(u, passedIn)(s[0]), FlatMap(ResultOf(u, passedIn), s[1..]);
      ResultsDistinct(u, passedIn, s[1..], tail);
      ResultNamesItsClass(u, s[0], s[0] in passedIn);
      assert s[0] !in s[1..];
      assert results == head + tail && |head| <= 1;
      forall i | 0 <= i < |results|
        ensures if i < |head| then results[i].type_ == s[0]
            else results[i] == tail[i - |head|] && results[i].type_ in s[1..]
      {
      }
    }
  }
}
