/**
 * The sort behind a battle round's turn order
 * (Assets/Scripts/BattleManager.cs, CalculateTurnOrder): LINQ's
 * OrderByDescending on each actor's speed. The sort is stable, so actors
 * with equal speed keep their roster order. Elements are paired with their
 * key, because the key is read from mutable actor state before sorting.
 */
module TurnOrder {

  /** Keys never increase from left to right. */
  predicate SortedDesc<T>(s: seq<(int, T)>)
  {
    forall i, j :: 0 <= i < j < |s| ==> s[i].0 >= s[j].0
  }

  /** The elements whose key is `k`, in order. */
  function WithKey<T>(s: seq<(int, T)>, k: int): seq<(int, T)>
  {
    if |s| == 0 then []
    else WithKey(s[..|s| - 1], k) + (if s[|s| - 1].0 == k then [s[|s| - 1]] else [])
  }

  lemma WithKeyAppend<T>(s: seq<(int, T)>, x: (int, T), k: int)
    ensures WithKey(s + [x], k) == WithKey(s, k) + (if x.0 == k then [x] else [])
  {
    assert (s + [x])[..|s|] == s;
  }

  /** Puts `x` after every element whose key is at least its own. */
  function Insert<T(==)>(s: seq<(int, T)>, x: (int, T)): (r: seq<(int, T)>)
    ensures multiset(r) == multiset(s) + multiset{x}
    ensures SortedDesc(s) ==> SortedDesc(r)
  {
    if |s| == 0 then [x]
    else if s[|s| - 1].0 >= x.0 then s + [x]
    else
      var init, last := s[..|s| - 1], s[|s| - 1];
      assert s == init + [last];
      var r := Insert(init, x);
      assert SortedDesc(s) ==> SortedDesc(r + [last]) by {
        if SortedDesc(s) {
          AppendBelow(r, init, x, last);
        }
      }
      r + [last]
  }

  /** Appending an element whose key is at most every key of a sorted sequence keeps it sorted. */
  lemma AppendBelow<T>(r: seq<(int, T)>, init: seq<(int, T)>, x: (int, T), last: (int, T))
    requires multiset(r) == multiset(init) + multiset{x} && SortedDesc(r)
    requires SortedDesc(init + [last]) && x.0 > last.0
    ensures SortedDesc(r + [last])
  {
    forall i | 0 <= i < |r|
      ensures r[i].0 >= last.0
    {
      assert r[i] in multiset(r);
      if r[i] != x {
        var j :| 0 <= j < |init| && init[j] == r[i];
        assert (init + [last])[j] == init[j] && (init + [last])[|init|] == last;
      }
    }
  }

  /** Insertion sort, descending by key. */
  function SortDesc<T(==)>(s: seq<(int, T)>): (r: seq<(int, T)>)
    ensures multiset(r) == multiset(s)
    ensures SortedDesc(r)
  {
    if |s| == 0 then []
    else
      assert s == s[..|s| - 1] + [s[|s| - 1]];
      Insert(SortDesc(s[..|s| - 1]), s[|s| - 1])
  }

  /** Inserting keeps the order of equal keys, with the new element last among them. */
  lemma {:induction false} InsertStable<T>(s: seq<(int, T)>, x: (int, T), k: int)
    requires SortedDesc(s)
    ensures WithKey(Insert(s, x), k) == WithKey(s, k) + (if x.0 == k then [x] else [])
  {
    if |s| == 0 {
      WithKeyAppend([], x, k);
      assert [] + [x] == [x];
    } else if s[|s| - 1].0 >= x.0 {
      WithKeyAppend(s, x, k);
    } else {
      var init, last := s[..|s| - 1], s[|s| - 1];
      assert s == init + [last];
      assert SortedDesc(init) by {
        forall i, j | 0 <= i < j < |init|
          ensures init[i].0 >= init[j].0
        {
          assert init[i] == s[i] && init[j] == s[j];
        }
      }
      var a := Insert(init, x);
      assert Insert(s, x) == a + [last];
      assert WithKey(a, k) == WithKey(init, k) + (if x.0 == k then [x] else []) by {
        InsertStable(init, x, k);
      }
      assert WithKey(a + [last], k) == WithKey(a, k) + (if last.0 == k then [last] else []) by {
        WithKeyAppend(a, last, k);
      }
      assert WithKey(s, k) == WithKey(init, k) + (if last.0 == k then [last] else []) by {
        WithKeyAppend(init, last, k);
      }
    }
  }

  /** The sort is stable: for every key, the elements with that key keep their relative order. */
  lemma {:induction false} SortStable<T>(s: seq<(int, T)>, k: int)
    ensures WithKey(SortDesc(s), k) == WithKey(s, k)
  {
    if |s| > 0 {
      var init, last := s[..|s| - 1], s[|s| - 1];
      SortStable(init, k);
      InsertStable(SortDesc(init), last, k);
    }
  }

  /** The elements without their keys. */
  function Values<T>(s: seq<(int, T)>): (r: seq<T>)
    ensures |r| == |s|
    ensures forall i :: 0 <= i < |s| ==> r[i] == s[i].1
  {
    seq(|s|, i requires 0 <= i < |s| => s[i].1)
  }

  /** The sorted sequence holds exactly the input's elements. */
  lemma SortMembers<T>(s: seq<(int, T)>, x: T)
    ensures x in Values(SortDesc(s)) <==> x in Values(s)
  {
    var r := SortDesc(s);
    if x in Values(r) {
      var i :| 0 <= i < |r| && Values(r)[i] == x;
      assert r[i] in multiset(s);
      var j :| 0 <= j < |s| && s[j] == r[i];
      assert Values(s)[j] == x;
    }
    if x in Values(s) {
      var j :| 0 <= j < |s| && Values(s)[j] == x;
      assert s[j] in multiset(r);
      var i :| 0 <= i < |r| && r[i] == s[j];
      assert Values(r)[i] == x;
    }
  }
}
