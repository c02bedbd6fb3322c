/** The natural order of strings and the strictly sorted sequences a TreeMap or ORDER BY yields. */
module Ordering {

  predicate Less(a: string, b: string) {
    if b == [] then false
    else if a == [] then true
    else a[0] < b[0] || (a[0] == b[0] && Less(a[1..], b[1..]))
  }

  lemma {:induction false} LessTotal(a: string, b: string)
    ensures Less(a, b) || a == b || Less(b, a)
    ensures !(Less(a, b) && Less(b, a))
    ensures !Less(a, a)
  {
    if a != [] {
      LessTotal(a[1..], a[1..]);
    }
    if a != [] && b != [] && a[0] == b[0] {
      LessTotal(a[1..], b[1..]);
      assert a == [a[0]] + a[1..] && b == [b[0]] + b[1..];
    }
  }

  lemma {:induction false} LessTransitive(a: string, b: string, c: string)
    requires Less(a, b) && Less(b, c)
    ensures Less(a, c)
  {
    if a != [] && a[0] == b[0] && b[0] == c[0] {
      LessTransitive(a[1..], b[1..], c[1..]);
    }
  }

  ghost predicate StrictlySorted(s: seq<string>) {
    forall i, j :: 0 <= i < j < |s| ==> Less(s[i], s[j])
  }

  /** The elements of s in ascending order, each once. */
  ghost predicate Enumerates(r: seq<string>, s: set<string>) {
    StrictlySorted(r) && forall x :: x in r <==> x in s
  }

  lemma HasElement(s: seq<string>)
    requires s != []
    ensures exists x :: x in s
  {
    assert s[0] in s;
  }

  lemma {:induction false} StrictlySortedUnique(r: seq<string>, t: seq<string>)
    requires StrictlySorted(r) && StrictlySorted(t)
    requires forall x :: x in r <==> x in t
    ensures r == t
  {
    if r == [] {
      if t != [] {
        HasElement(t);
        assert false;
      }
    } else {
      assert r[0] in t && t[0] in r;
      var j :| 0 <= j < |t| && t[j] == r[0];
      var i :| 0 <= i < |r| && r[i] == t[0];
      LessTotal(r[0], t[0]);
      assert r[0] == t[0];
      LessTotal(r[0], r[0]);
      forall x ensures x in r[1..] <==> x in t[1..] {
        assert x in r <==> x == r[0] || x in r[1..];
        assert x in t <==> x == t[0] || x in t[1..];
        assert r[0] !in r[1..] && t[0] !in t[1..];
      }
      StrictlySortedUnique(r[1..], t[1..]);
    }
  }

  /** Where a TreeMap would place x. */
  function Insert(r: seq<string>, x: string): (t: seq<string>)
    ensures forall y :: y in t <==> y in r || y == x
  {
    if r == [] then [x]
    else if Less(x, r[0]) then [x] + r
    else if x == r[0] then r
    else
      assert r == [r[0]] + r[1..];
      [r[0]] + Insert(r[1..], x)
  }

  lemma {:induction false} InsertSorted(r: seq<string>, x: string)
    requires StrictlySorted(r)
    ensures StrictlySorted(Insert(r, x))
  {
    if r == [] {
    } else if Less(x, r[0]) {
      forall j | 0 < j < |r| ensures Less(x, r[j]) {
        LessTransitive(x, r[0], r[j]);
      }
    } else if x != r[0] {
      LessTotal(x, r[0]);
      InsertSorted(r[1..], x);
      var t := Insert(r[1..], x);
      forall j | 0 <= j < |t| ensures Less(r[0], t[j]) {
        assert t[j] in t;
      }
    }
  }

  /** The ascending enumeration of a finite set, the order in which a TreeMap over it iterates. */
  ghost function Sorted(s: set<string>): seq<string> {
    if s == {} then []
    else
      var x :| x in s;
      Insert(Sorted(s - {x}), x)
  }

  lemma {:induction false} SortedEnumerates(s: set<string>)
    ensures Enumerates(Sorted(s), s)
  {
    if s != {} {
      var x :| x in s && Sorted(s) == Insert(Sorted(s - {x}), x);
      SortedEnumerates(s - {x});
      InsertSorted(Sorted(s - {x}), x);
    }
  }

  lemma SortedUnique(r: seq<string>, s: set<string>)
    requires Enumerates(r, s)
    ensures r == Sorted(s)
  {
    SortedEnumerates(s);
    StrictlySortedUnique(r, Sorted(s));
  }

  lemma {:induction false} EnumerationLength(r: seq<string>, s: set<string>)
    requires Enumerates(r, s)
    ensures |r| == |s|
  {
    if r == [] {
      assert s == {};
    } else {
      LessTotal(r[0], r[0]);
      assert r[0] !in r[1..];
      forall x ensures x in r[1..] <==> x in s - {r[0]} {
        assert x in r <==> x == r[0] || x in r[1..];
      }
      EnumerationLength(r[1..], s - {r[0]});
    }
  }

  /** A string is less than another iff, after what they have in common, it ends or goes on with a lesser character. */
  lemma {:induction false} LessIff(a: string, b: string)
    ensures Less(a, b) <==> exists k: nat :: DiffersAt(a, b, k)
  {
    if a != [] && b != [] && a[0] == b[0] {
      LessIff(a[1..], b[1..]);
      if k: nat :| DiffersAt(a[1..], b[1..], k) {
        assert a[..k + 1] == [a[0]] + a[1..][..k] && b[..k + 1] == [b[0]] + b[1..][..k];
        assert DiffersAt(a, b, k + 1);
      }
      if k: nat :| DiffersAt(a, b, k) {
        assert k > 0 && a[1..][..k - 1] == a[..k][1..] && b[1..][..k - 1] == b[..k][1..];
        assert DiffersAt(a[1..], b[1..], k - 1);
      }
    } else {
      if Less(a, b) {
        assert DiffersAt(a, b, 0);
      }
      if k: nat :| DiffersAt(a, b, k) {
        if k > 0 {
          assert a[..k][0] == b[..k][0];
        }
      }
    }
  }

  predicate DiffersAt(a: string, b: string, k: nat) {
    && k <= |a| && k < |b| && a[..k] == b[..k]
    && (k == |a| || a[k] < b[k])
  }
}
