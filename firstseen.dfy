/**
 * Keeping each element of a sequence the first time it is seen: the shape
 * of the `if year not in year_list: year_list.append(year)` loop.
 */
module FirstSeen {

  predicate Distinct<T(==)>(s: seq<T>)
  {
    forall i, j :: 0 <= i < j < |s| ==> s[i] != s[j]
  }

  /** The position where `x` first occurs in `s`. */
  function FirstIndex<T(==)>(s: seq<T>, x: T): (i: nat)
    requires x in s
    ensures i < |s| && s[i] == x && x !in s[..i]
  {
    if s[0] == x then 0
    else
      var i := FirstIndex(s[1..], x);
      assert s[..i + 1] == [s[0]] + s[1..][..i];
      1 + i
  }

  lemma FirstIndexAt<T>(s: seq<T>, x: T, i: nat)
    requires i < |s| && s[i] == x && x !in s[..i]
    ensures FirstIndex(s, x) == i
  {
  }

  /** Left to right: an element is appended unless it is already there. */
  function Dedup<T(==, !new)>(s: seq<T>): (r: seq<T>)
    ensures Distinct(r)
    ensures forall x :: x in r <==> x in s
  {
    if s == [] then []
    else
      var d := Dedup(s[..|s| - 1]);
      var x := s[|s| - 1];
      assert s == s[..|s| - 1] + [x];
      if x in d then d else d + [x]
  }

  /** Extending a sequence at the end does not move first occurrences. */
  lemma FirstIndexOfPrefix<T>(p: seq<T>, x: T, y: T)
    requires y in p
    ensures FirstIndex(p + [x], y) == FirstIndex(p, y) < |p|
  {
    var k := FirstIndex(p, y);
    assert (p + [x])[..k] == p[..k];
    FirstIndexAt(p + [x], y, k);
  }

  /** Dedup lists the elements in the order of their first occurrence. */
  lemma {:induction false} DedupFirstSeenOrder<T(!new)>(s: seq<T>, i: nat, j: nat)
    requires i < j < |Dedup(s)|
    ensures FirstIndex(s, Dedup(s)[i]) < FirstIndex(s, Dedup(s)[j])
  {
    var p, x := s[..|s| - 1], s[|s| - 1];
    assert s == p + [x];
    var d := Dedup(p);
    if j < |d| {
      DedupFirstSeenOrder(p, i, j);
      FirstIndexOfPrefix(p, x, d[i]);
      FirstIndexOfPrefix(p, x, d[j]);
    } else {
      assert x !in d && Dedup(s) == d + [x] && Dedup(s)[j] == x;
      assert s[..|p|] == p;
      FirstIndexAt(s, x, |p|);
      FirstIndexOfPrefix(p, x, d[i]);
    }
  }

  /** The elements of `s`, each once, in the order of their first occurrence. */
  ghost predicate FirstSeenList<T(!new)>(s: seq<T>, r: seq<T>)
  {
    && Distinct(r)
    && (forall x :: x in r <==> x in s)
    && (forall i, j :: 0 <= i < j < |r| ==> FirstIndex(s, r[i]) < FirstIndex(s, r[j]))
  }

  lemma HeadIn<T>(r: seq<T>)
    requires |r| > 0
    ensures r[0] in r
  {
  }

  /** The three properties describe Dedup completely: no other list has them. */
  lemma {:induction false} FirstSeenListIsDedup<T(!new)>(s: seq<T>, r: seq<T>)
    ensures FirstSeenList(s, r) <==> r == Dedup(s)
  {
    if r == Dedup(s) {
      forall i, j | 0 <= i < j < |r| ensures FirstIndex(s, r[i]) < FirstIndex(s, r[j]) {
        DedupFirstSeenOrder(s, i, j);
      }
    } else if FirstSeenList(s, r) {
      OnlyDedupIsFirstSeenList(s, r);
    }
  }

  lemma {:induction false} OnlyDedupIsFirstSeenList<T(!new)>(s: seq<T>, r: seq<T>)
    requires FirstSeenList(s, r)
    ensures r == Dedup(s)
  {
    if s == [] {
      if r != [] {
        HeadIn(r);
        assert false;
      }
    } else {
      var p, x := s[..|s| - 1], s[|s| - 1];
      assert s == p + [x];
      if x in p {
        FirstSeenListDropSeen(p, x, r);
        OnlyDedupIsFirstSeenList(p, r);
      } else {
        FirstSeenListDropNew(p, x, r);
        OnlyDedupIsFirstSeenList(p, r[..|r| - 1]);
        assert r == r[..|r| - 1] + [x];
      }
    }
  }

  /** Dropping a last element seen before keeps the list of first occurrences. */
  lemma FirstSeenListDropSeen<T(!new)>(p: seq<T>, x: T, r: seq<T>)
    requires x in p && FirstSeenList(p + [x], r)
    ensures FirstSeenList(p, r)
  {
    forall y | y in p ensures FirstIndex(p + [x], y) == FirstIndex(p, y) {
      FirstIndexOfPrefix(p, x, y);
    }
  }

  /** A last element seen for the first time comes last in the list of first occurrences. */
  lemma FirstSeenListDropNew<T(!new)>(p: seq<T>, x: T, r: seq<T>)
    requires x !in p && FirstSeenList(p + [x], r)
    ensures |r| > 0 && r[|r| - 1] == x && FirstSeenList(p, r[..|r| - 1])
  {
    var s := p + [x];
    forall y | y in p ensures FirstIndex(s, y) == FirstIndex(p, y) < |p| {
      FirstIndexOfPrefix(p, x, y);
    }
    assert s[..|p|] == p;
    FirstIndexAt(s, x, |p|);
    assert x in r;
    var n := |r| - 1;
    forall i | 0 <= i < n ensures r[i] != x {
      assert FirstIndex(s, r[i]) < FirstIndex(s, r[n]);
    }
    var k :| 0 <= k < |r| && r[k] == x;
    assert k == n;
    var q := r[..n];
    assert r == q + [x];
    assert x !in q;
    forall y ensures y in q <==> y in p {
      assert y in r <==> y in q || y == x;
    }
  }
}
