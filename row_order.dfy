/**
 * `df.sort_values(by=['customer_id', 'month'])` (app.py:61): rows ordered by
 * customer ID under string order, then by month. The library sort is
 * modelled by a stable insertion sort; SortedPermutationsAgree shows that
 * when no two rows share a key every sort produces this same result.
 */
module RowOrder {
  import opened StringOrder
  import opened Records

  predicate KeyLess(a: Row, b: Row)
  {
    StrLess(a.customerId, b.customerId) || (a.customerId == b.customerId && a.month < b.month)
  }

  predicate SameKey(a: Row, b: Row)
  {
    a.customerId == b.customerId && a.month == b.month
  }

  /** No row is preceded by a row with a larger key. */
  predicate Sorted(s: seq<Row>)
  {
    forall i, j :: 0 <= i < j < |s| ==> !KeyLess(s[j], s[i])
  }

  predicate StrictlyAscending(s: seq<Row>)
  {
    forall i, j :: 0 <= i < j < |s| ==> KeyLess(s[i], s[j])
  }

  predicate KeysDistinct(s: seq<Row>)
  {
    forall i, j :: 0 <= i < j < |s| ==> !SameKey(s[i], s[j])
  }

  lemma KeyLessIrreflexive(a: Row)
    ensures !KeyLess(a, a)
  {
    StrLessIrreflexive(a.customerId);
  }

  lemma KeyLessAsymmetric(a: Row, b: Row)
    requires KeyLess(a, b)
    ensures !KeyLess(b, a)
  {
    if StrLess(a.customerId, b.customerId) {
      StrLessAsymmetric(a.customerId, b.customerId);
    } else {
      StrLessIrreflexive(a.customerId);
    }
  }

  lemma KeyLessTotal(a: Row, b: Row)
    ensures SameKey(a, b) || KeyLess(a, b) || KeyLess(b, a)
  {
    StrLessTotal(a.customerId, b.customerId);
  }

  /** Not being smaller is transitive (the key order is a strict weak order). */
  lemma NotKeyLessTransitive(x: Row, y: Row, z: Row)
    requires !KeyLess(y, x) && !KeyLess(z, y)
    ensures !KeyLess(z, x)
  {
    StrLessTotal(x.customerId, y.customerId);
    StrLessTotal(y.customerId, z.customerId);
    if StrLess(z.customerId, x.customerId) && StrLess(x.customerId, y.customerId) {
      StrLessTransitive(z.customerId, x.customerId, y.customerId);
    }
  }

  /** Places r before the first row whose key is not smaller than r's. */
  function Insert(r: Row, s: seq<Row>): (t: seq<Row>)
    ensures multiset(t) == multiset(s) + multiset{r}
    ensures |t| == |s| + 1
  {
    if s == [] || !KeyLess(s[0], r) then [r] + s
    else
      assert s == [s[0]] + s[1..];
      [s[0]] + Insert(r, s[1..])
  }

  function SortByKey(s: seq<Row>): (t: seq<Row>)
    ensures multiset(t) == multiset(s)
    ensures |t| == |s|
  {
    if s == [] then []
    else
      assert s == [s[0]] + s[1..];
      Insert(s[0], SortByKey(s[1..]))
  }

  lemma SortedCons(x: Row, t: seq<Row>)
    requires Sorted(t)
    requires forall k :: 0 <= k < |t| ==> !KeyLess(t[k], x)
    ensures Sorted([x] + t)
  {
    var s := [x] + t;
    forall i, j | 0 <= i < j < |s|
      ensures !KeyLess(s[j], s[i])
    {
      assert s[j] == t[j - 1];
      if i > 0 {
        assert s[i] == t[i - 1];
      }
    }
  }

  lemma {:induction false} InsertSorted(r: Row, s: seq<Row>)
    requires Sorted(s)
    ensures Sorted(Insert(r, s))
  {
    if s == [] || !KeyLess(s[0], r) {
      forall k | 0 <= k < |s|
        ensures !KeyLess(s[k], r)
      {
        if k > 0 {
          NotKeyLessTransitive(r, s[0], s[k]);
        }
      }
      SortedCons(r, s);
    } else {
      var tail := s[1..];
      InsertSorted(r, tail);
      var t := Insert(r, tail);
      forall k | 0 <= k < |t|
        ensures !KeyLess(t[k], s[0])
      {
        assert t[k] in multiset(t);
        if t[k] == r {
          KeyLessAsymmetric(s[0], r);
        } else {
          assert t[k] in multiset(tail);
          var m :| 0 <= m < |tail| && tail[m] == t[k];
          assert s[m + 1] == t[k];
        }
      }
      SortedCons(s[0], t);
    }
  }

  lemma {:induction false} SortByKeySorted(s: seq<Row>)
    ensures Sorted(SortByKey(s))
  {
    if s != [] {
      SortByKeySorted(s[1..]);
      InsertSorted(s[0], SortByKey(s[1..]));
    }
  }

  /** When no two rows share a key, the sorted arrangement of a multiset of
      rows is unique: any two sorted permutations are equal. */
  lemma {:induction false} SortedPermutationsAgree(a: seq<Row>, b: seq<Row>)
    requires multiset(a) == multiset(b)
    requires Sorted(a) && Sorted(b) && KeysDistinct(a)
    ensures a == b
    decreases |a|
  {
    assert |a| == |multiset(a)| == |multiset(b)| == |b|;
    if a != [] {
      SameHead(a, b);
      assert a == [a[0]] + a[1..] && b == [b[0]] + b[1..];
      assert multiset(a) == multiset{a[0]} + multiset(a[1..]);
      assert multiset(b) == multiset{b[0]} + multiset(b[1..]);
      assert multiset(a[1..]) == multiset(a) - multiset{a[0]};
      assert multiset(b[1..]) == multiset(b) - multiset{b[0]};
      assert multiset(a[1..]) == multiset(b[1..]);
      SortedPermutationsAgree(a[1..], b[1..]);
    }
  }

  lemma SameHead(a: seq<Row>, b: seq<Row>)
    requires a != [] && multiset(a) == multiset(b)
    requires Sorted(a) && Sorted(b) && KeysDistinct(a)
    ensures b != [] && a[0] == b[0]
  {
    assert a[0] in multiset(b) && |b| > 0;
    assert b[0] in multiset(a);
    var k :| 0 <= k < |b| && b[k] == a[0];
    var i :| 0 <= i < |a| && a[i] == b[0];
    KeyLessIrreflexive(a[0]);
    assert !KeyLess(a[0], b[0]) by {
      if k > 0 { assert !KeyLess(b[k], b[0]); }
    }
    assert !KeyLess(b[0], a[0]) by {
      if i > 0 { assert !KeyLess(a[i], a[0]); }
    }
    KeyLessTotal(a[0], b[0]);
  }

  lemma DistinctCons(x: Row, t: seq<Row>)
    requires KeysDistinct(t)
    requires forall k :: 0 <= k < |t| ==> !SameKey(x, t[k])
    ensures KeysDistinct([x] + t)
  {
    var s := [x] + t;
    forall i, j | 0 <= i < j < |s|
      ensures !SameKey(s[i], s[j])
    {
      assert s[j] == t[j - 1];
      if i > 0 {
        assert s[i] == t[i - 1];
      }
    }
  }

  lemma {:induction false} InsertKeysDistinct(r: Row, s: seq<Row>)
    requires KeysDistinct(s)
    requires forall k :: 0 <= k < |s| ==> !SameKey(r, s[k])
    ensures KeysDistinct(Insert(r, s))
  {
    if s == [] || !KeyLess(s[0], r) {
      DistinctCons(r, s);
    } else {
      var tail := s[1..];
      InsertKeysDistinct(r, tail);
      var t := Insert(r, tail);
      forall k | 0 <= k < |t|
        ensures !SameKey(s[0], t[k])
      {
        assert t[k] in multiset(t);
        if t[k] != r {
          assert t[k] in multiset(tail);
          var m :| 0 <= m < |tail| && tail[m] == t[k];
          assert s[m + 1] == t[k];
        }
      }
      DistinctCons(s[0], t);
    }
  }

  /** Sorting keeps the keys distinct. */
  lemma {:induction false} SortByKeyKeysDistinct(s: seq<Row>)
    requires KeysDistinct(s)
    ensures KeysDistinct(SortByKey(s))
  {
    if s != [] {
      var tail := s[1..];
      SortByKeyKeysDistinct(tail);
      var t := SortByKey(tail);
      forall k | 0 <= k < |t|
        ensures !SameKey(s[0], t[k])
      {
        assert t[k] in multiset(t);
        var m :| 0 <= m < |tail| && tail[m] == t[k];
        assert s[m + 1] == t[k];
      }
      InsertKeysDistinct(s[0], t);
    }
  }

  /** Rows already in strictly ascending key order are left where they are. */
  lemma SortByKeyKeepsAscending(s: seq<Row>)
    requires StrictlyAscending(s)
    ensures SortByKey(s) == s
  {
    forall i, j | 0 <= i < j < |s|
      ensures !KeyLess(s[j], s[i]) && !SameKey(s[i], s[j])
    {
      KeyLessAsymmetric(s[i], s[j]);
      StrLessIrreflexive(s[i].customerId);
    }
    SortByKeySorted(s);
    SortedPermutationsAgree(s, SortByKey(s));
  }
}
