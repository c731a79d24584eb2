/** Rows ordered by a time and then by id, as the keyset queries order them. */
module Ordering {
  import opened Common

  datatype Key = Key(at: Time, id: nat)

  predicate Before(a: Key, b: Key) {
    a.at < b.at || (a.at == b.at && a.id < b.id)
  }

  predicate Increasing(keys: seq<Key>) {
    forall i, j :: 0 <= i < j < |keys| ==> Before(keys[i], keys[j])
  }

  lemma {:induction false} LeastExists(keys: set<Key>) returns (least: Key)
    requires keys != {}
    ensures least in keys && forall k | k in keys :: k == least || Before(least, k)
  {
    var k :| k in keys;
    if keys == {k} {
      least := k;
    } else {
      var rest := LeastExists(keys - {k});
      assert forall x | x in keys :: x == k || x in keys - {k};
      least := if Before(k, rest) then k else rest;
    }
  }

  function Least(keys: set<Key>): (least: Key)
    requires keys != {}
    ensures least in keys && forall k | k in keys :: k == least || Before(least, k)
  {
    assert exists least | least in keys :: forall k | k in keys :: k == least || Before(least, k) by {
      var l := LeastExists(keys);
    }
    var least :| least in keys && forall k | k in keys :: k == least || Before(least, k);
    least
  }

  /** The rows of a query in their order. */
  function Sorted(keys: set<Key>): (rows: seq<Key>)
    ensures Increasing(rows) && |rows| == |keys| && (forall k :: k in rows <==> k in keys)
    decreases |keys|
  {
    if keys == {} then []
    else
      var least := Least(keys);
      var rest := Sorted(keys - {least});
      assert forall k | k in rest :: k in keys - {least};
      [least] + rest
  }

  /** The query's `limit`. */
  function Take<T>(rows: seq<T>, n: nat): (taken: seq<T>)
    ensures |taken| == if |rows| <= n then |rows| else n
    ensures forall i :: 0 <= i < |taken| ==> taken[i] == rows[i]
  {
    if |rows| <= n then rows else rows[..n]
  }

  lemma LeastIsFirst(rows: seq<Key>, keys: set<Key>)
    requires rows != [] && Increasing(rows) && forall k :: k in rows <==> k in keys
    ensures keys != {} && rows[0] == Least(keys)
    ensures Increasing(rows[1..]) && forall k :: k in rows[1..] <==> k in keys - {rows[0]}
  {
    assert rows[0] in rows && Least(keys) in rows;
    forall k
      ensures k in rows[1..] <==> k in keys - {rows[0]}
    {
      if k in rows[1..] { assert Before(rows[0], k); }
    }
  }

  /** An increasing sequence is determined by its elements. */
  lemma {:induction false} SortedIsUnique(rows: seq<Key>, keys: set<Key>)
    requires Increasing(rows) && forall k :: k in rows <==> k in keys
    ensures rows == Sorted(keys)
    decreases |rows|
  {
    hide Increasing, Least;
    if rows == [] {
      assert keys == {};
    } else {
      LeastIsFirst(rows, keys);
      SortedIsUnique(rows[1..], keys - {rows[0]});
    }
  }
}
