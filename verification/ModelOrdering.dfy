/** The two orders the scanner reports in: classes by simple, then full name, and member names, repeated or not. */
module ModelOrdering {
  import opened Ordering

  datatype ClassName = ClassName(simple: string, full: string)

  predicate Before(a: ClassName, b: ClassName) {
    Less(a.simple, b.simple) || (a.simple == b.simple && Less(a.full, b.full))
  }

  lemma BeforeTotal(a: ClassName, b: ClassName)
    ensures Before(a, b) || a == b || Before(b, a)
    ensures !(Before(a, b) && Before(b, a)) && !Before(a, a)
  {
    LessTotal(a.simple, b.simple);
    LessTotal(a.full, b.full);
    LessTotal(a.simple, a.simple);
    LessTotal(a.full, a.full);
  }

  lemma BeforeTransitive(a: ClassName, b: ClassName, c: ClassName)
    requires Before(a, b) && Before(b, c)
    ensures Before(a, c)
  {
    if Less(a.simple, b.simple) && Less(b.simple, c.simple) {
      LessTransitive(a.simple, b.simple, c.simple);
    } else if a.simple == b.simple && b.simple == c.simple {
      LessTransitive(a.full, b.full, c.full);
    }
  }

  predicate InOrder(s: seq<ClassName>) {
    forall i, j :: 0 <= i < j < |s| ==> Before(s[i], s[j])
  }

  /** Where a TreeMap with that comparator puts a key. */
  function InsertKey(s: seq<ClassName>, x: ClassName): (r: seq<ClassName>)
    ensures forall y :: y in r <==> y in s || y == x
  {
    if s == [] then [x]
    else if Before(x, s[0]) then [x] + s
    else if x == s[0] then s
    else
      assert s == [s[0]] + s[1..];
      [s[0]] + InsertKey(s[1..], x)
  }

  lemma {:induction false} InsertKeyInOrder(s: seq<ClassName>, x: ClassName)
    requires InOrder(s)
    ensures InOrder(InsertKey(s, x))
  {
    if s == [] {
    } else if Before(x, s[0]) {
      forall j | 0 < j < |s| ensures Before(x, s[j]) {
        BeforeTransitive(x, s[0], s[j]);
      }
    } else if x != s[0] {
      BeforeTotal(x, s[0]);
      InsertKeyInOrder(s[1..], x);
      var t := InsertKey(s[1..], x);
      forall j | 0 <= j < |t| ensures Before(s[0], t[j]) {
        assert t[j] in t;
      }
    }
  }

  lemma EmptyIffNothing<T>(s: seq<T>)
    ensures s == [] <==> forall x :: x !in s
  {
    if s != [] {
      assert s[0] in s;
    }
  }

  lemma {:induction false} InOrderUnique(r: seq<ClassName>, t: seq<ClassName>)
    requires InOrder(r) && InOrder(t) && forall x :: x in r <==> x in t
    ensures r == t
  {
    EmptyIffNothing(r);
    EmptyIffNothing(t);
    if r != [] {
      assert r[0] in r && r[0] in t;
      assert t[0] in t && t[0] in r;
      var j :| 0 <= j < |t| && t[j] == r[0];
      var i :| 0 <= i < |r| && r[i] == t[0];
      BeforeTotal(r[0], t[0]);
      BeforeTotal(r[0], r[0]);
      forall x ensures x in r[1..] <==> x in t[1..] {
        assert x in r <==> x == r[0] || x in r[1..];
        assert x in t <==> x == t[0] || x in t[1..];
        assert r[0] !in r[1..] && t[0] !in t[1..];
      }
      InOrderUnique(r[1..], t[1..]);
    }
  }

  // ----- member names, sorted with repetitions ---------------------------------------------------------------

  predicate Ascending(s: seq<string>) {
    forall i, j :: 0 <= i < j < |s| ==> !Less(s[j], s[i])
  }

  function Place(s: seq<string>, x: string): (r: seq<string>)
    ensures multiset(r) == multiset(s) + multiset{x}
  {
    if s == [] then [x]
    else if Less(x, s[0]) then [x] + s
    else
      assert s == [s[0]] + s[1..];
      [s[0]] + Place(s[1..], x)
  }

  function SortNames(s: seq<string>): (r: seq<string>)
    ensures multiset(r) == multiset(s)
  {
    if s == [] then []
    else
      assert s == s[..|s| - 1] + [s[|s| - 1]];
      Place(SortNames(s[..|s| - 1]), s[|s| - 1])
  }

  lemma {:induction false} PlaceAscending(s: seq<string>, x: string)
    requires Ascending(s)
    ensures Ascending(Place(s, x))
  {
    if s == [] {
    } else if Less(x, s[0]) {
      forall j | 0 <= j < |s| ensures !Less(s[j], x) {
        if Less(s[j], x) {
          LessTransitive(s[j], x, s[0]);
          LessTotal(s[0], s[0]);
        }
      }
    } else {
      PlaceAscending(s[1..], x);
      var t := Place(s[1..], x);
      forall j | 0 <= j < |t| ensures !Less(t[j], s[0]) {
        assert t[j] in multiset(t);
        assert t[j] in s[1..] || t[j] == x;
      }
    }
  }

  lemma {:induction false} SortNamesAscending(s: seq<string>)
    ensures Ascending(SortNames(s))
  {
    if s != [] {
      SortNamesAscending(s[..|s| - 1]);
      PlaceAscending(SortNames(s[..|s| - 1]), s[|s| - 1]);
    }
  }

  lemma {:induction false} AscendingUnique(a: seq<string>, b: seq<string>)
    requires Ascending(a) && Ascending(b) && multiset(a) == multiset(b)
    ensures a == b
  {
    assert |a| == |multiset(a)| && |b| == |multiset(b)|;
    if a != [] {
      SameLeast(a, b);
      RestOf(a);
      RestOf(b);
      AscendingUnique(a[1..], b[1..]);
      assert a == [a[0]] + a[1..] && b == [b[0]] + b[1..];
    }
  }

  lemma RestOf(s: seq<string>)
    requires s != []
    ensures multiset(s[1..]) == multiset(s) - multiset{s[0]}
  {
    assert s == [s[0]] + s[1..];
  }

  lemma SameLeast(a: seq<string>, b: seq<string>)
    requires Ascending(a) && Ascending(b) && multiset(a) == multiset(b) && a != [] && b != []
    ensures a[0] == b[0]
  {
    assert a[0] in multiset(a) && b[0] in multiset(b);
    assert a[0] in b && b[0] in a;
    var j :| 0 <= j < |b| && b[j] == a[0];
    var i :| 0 <= i < |a| && a[i] == b[0];
    LessTotal(a[0], b[0]);
  }

  /** Sorting forgets the order the names came in. */
  lemma SortForgetsOrder(a: seq<string>, b: seq<string>)
    requires multiset(a) == multiset(b)
    ensures SortNames(a) == SortNames(b)
  {
    SortNamesAscending(a);
    SortNamesAscending(b);
    AscendingUnique(SortNames(a), SortNames(b));
  }
}
