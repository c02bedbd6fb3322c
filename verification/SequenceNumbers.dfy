/** SELECT COALESCE(MAX(sequence_number) + 1, 0): the number after the greatest among primary keys (id, number). */
module SequenceNumbers {

  ghost predicate IsNextNumber(keys: set<(string, int)>, next: int) {
    if keys == {} then next == 0
    else (exists k <- keys :: k.1 == next - 1) && forall k <- keys :: k.1 < next
  }

  ghost function NextNumber(keys: set<(string, int)>): int {
    if keys == {} then 0
    else
      var k :| k in keys;
      Above(k, keys, NextNumber(keys - {k}))
  }

  function Above(k: (string, int), keys: set<(string, int)>, rest: int): int {
    if keys == {k} || rest <= k.1 then k.1 + 1 else rest
  }

  lemma AboveIsNext(k: (string, int), keys: set<(string, int)>, rest: int)
    requires k in keys && IsNextNumber(keys - {k}, rest)
    ensures IsNextNumber(keys, Above(k, keys, rest))
  {
    assert forall m <- keys :: m == k || m in keys - {k};
    if keys - {k} == {} {
      assert keys == {k};
    } else if rest > k.1 {
      var m :| m in keys - {k} && m.1 == rest - 1;
      assert m in keys;
    }
  }

  lemma NextWithOneMore(keys: set<(string, int)>, next: int, k: (string, int))
    requires IsNextNumber(keys, next) && k !in keys
    ensures IsNextNumber(keys + {k}, if keys == {} || next <= k.1 then k.1 + 1 else next)
  {
    assert k in keys + {k};
    if keys != {} {
      var m :| m in keys && m.1 == next - 1;
      assert m in keys + {k};
    }
  }

  lemma {:induction false} NextNumberIsNext(keys: set<(string, int)>)
    ensures IsNextNumber(keys, NextNumber(keys))
  {
    if keys != {} {
      var k :| k in keys && NextNumber(keys) == Above(k, keys, NextNumber(keys - {k}));
      NextNumberIsNext(keys - {k});
      AboveIsNext(k, keys, NextNumber(keys - {k}));
    }
  }

  lemma NextNumberUnique(keys: set<(string, int)>, next: int)
    requires IsNextNumber(keys, next)
    ensures next == NextNumber(keys)
  {
    NextNumberIsNext(keys);
  }
}
