/**
 * SerializableDictionary<K, V>: a dictionary stored as two parallel lists,
 * `keys` and `values`, so that the engine can serialise it.
 *
 * `Table` is the value of such a dictionary and the functions over it are the
 * specification; the class `SerializableDictionary` is the object whose
 * methods change the two lists in place, proved against those functions.
 * Every damage, multiplier and condition table of the game is a `Table`.
 */
module Tables {
  import opened Wrappers

  /** The two parallel lists of a SerializableDictionary. */
  datatype Table<K, V> = Table(keys: seq<K>, values: seq<V>)

  function Empty<K, V>(): Table<K, V>
  {
    Table([], [])
  }

  /** The two lists have the same length: the invariant every operation keeps. */
  predicate Aligned<K, V>(t: Table<K, V>)
  {
    |t.keys| == |t.values|
  }

  function Min(a: int, b: int): int
  {
    if a <= b then a else b
  }

  /** List<K>.IndexOf: the first position holding `k`, or -1. */
  function IndexOf<K(==)>(s: seq<K>, k: K): (r: int)
    ensures -1 <= r < |s|
    ensures r == -1 <==> k !in s
    ensures 0 <= r ==> s[r] == k && forall j :: 0 <= j < r ==> s[j] != k
  {
    if |s| == 0 then -1
    else if s[0] == k then 0
    else
      var r := IndexOf(s[1..], k);
      if r == -1 then -1 else r + 1
  }

  /** The last position holding `k`, or -1. */
  function LastIndexOf<K(==)>(s: seq<K>, k: K): (r: int)
    ensures -1 <= r < |s|
    ensures r == -1 <==> k !in s
    ensures 0 <= r ==> s[r] == k && forall j :: r < j < |s| ==> s[j] != k
  {
    if |s| == 0 then -1
    else if s[|s| - 1] == k then |s| - 1
    else LastIndexOf(s[..|s| - 1], k)
  }

  /** The indexer finds `k` at a position the values list reaches. */
  predicate Has<K(==), V>(t: Table<K, V>, k: K)
  {
    0 <= IndexOf(t.keys, k) < |t.values|
  }

  /** The indexer's getter (and TryGetValue): the value at the first occurrence of `k`. */
  function Lookup<K(==), V>(t: Table<K, V>, k: K): Option<V>
  {
    var i := IndexOf(t.keys, k);
    if 0 <= i < |t.values| then Some(t.values[i]) else None
  }

  /** Lookup with the default the combat code uses for a missing entry. */
  function LookupOr<K(==), V>(t: Table<K, V>, k: K, default: V): V
  {
    Lookup(t, k).GetOr(default)
  }

  /** The indexer's setter: overwrite the slot of the first occurrence, or append a pair. */
  function Assign<K(==), V>(t: Table<K, V>, k: K, v: V): Table<K, V>
  {
    var i := IndexOf(t.keys, k);
    if 0 <= i < |t.values| then Table(t.keys, t.values[i := v])
    else Table(t.keys + [k], t.values + [v])
  }

  /** Remove: drop the first occurrence of `k` from both lists, if the indexer finds it. */
  function Delete<K(==), V>(t: Table<K, V>, k: K): Table<K, V>
  {
    var i := IndexOf(t.keys, k);
    if 0 <= i < |t.values| then
      Table(t.keys[..i] + t.keys[i + 1..], t.values[..i] + t.values[i + 1..])
    else t
  }

  /** The enumerator: pairs in list order, as far as the shorter list reaches. */
  function Pairs<K, V>(t: Table<K, V>): seq<(K, V)>
  {
    seq(Min(|t.keys|, |t.values|), i requires 0 <= i < Min(|t.keys|, |t.values|) => (t.keys[i], t.values[i]))
  }

  /** A standard dictionary filled pair by pair, a later pair overwriting an earlier one. */
  function PairsToMap<K, V>(ps: seq<(K, V)>): map<K, V>
  {
    if |ps| == 0 then map[]
    else PairsToMap(ps[..|ps| - 1])[ps[|ps| - 1].0 := ps[|ps| - 1].1]
  }

  /** ToDictionary. */
  function ToMap<K, V>(t: Table<K, V>): map<K, V>
  {
    PairsToMap(Pairs(t))
  }

  // ----- Properties of the specification -----

  /** IndexOf after appending a key that was missing finds the appended one. */
  lemma IndexOfAppend<K>(s: seq<K>, x: K, k: K)
    ensures k in s ==> IndexOf(s + [x], k) == IndexOf(s, k)
    ensures k !in s && k == x ==> IndexOf(s + [x], k) == |s|
    ensures k !in s && k != x ==> IndexOf(s + [x], k) == -1
  {
    var s' := s + [x];
    if k in s {
      var i := IndexOf(s, k);
      assert s'[i] == k;
    } else if k == x {
      assert s'[|s|] == k;
    }
  }

  /** After `d[k] = v`, `d[k]` returns `v`; every other key reads as before; the lists stay aligned. */
  lemma AssignThenLookup<K, V>(t: Table<K, V>, k: K, v: V, other: K)
    requires Aligned(t)
    ensures Aligned(Assign(t, k, v))
    ensures Lookup(Assign(t, k, v), k) == Some(v)
    ensures other != k ==> Lookup(Assign(t, k, v), other) == Lookup(t, other)
  {
    if !Has(t, k) {
      IndexOfAppend(t.keys, k, k);
      IndexOfAppend(t.keys, k, other);
    }
  }

  /**
   * Setting an existing key changes only the value slot of its first
   * occurrence, keeping the keys, their order, the count and the slots of any
   * later occurrence of the key; setting a new key appends one pair at the end.
   */
  lemma AssignShape<K, V>(t: Table<K, V>, k: K, v: V)
    requires Aligned(t)
    ensures k in t.keys ==>
      && Assign(t, k, v).keys == t.keys
      && |Assign(t, k, v).values| == |t.values|
      && Assign(t, k, v).values[IndexOf(t.keys, k)] == v
      && forall j :: 0 <= j < |t.values| && j != IndexOf(t.keys, k) ==> Assign(t, k, v).values[j] == t.values[j]
    ensures k !in t.keys ==>
      && Assign(t, k, v).keys == t.keys + [k]
      && Assign(t, k, v).values == t.values + [v]
  {
  }

  /** Where IndexOf finds `x` once a position holding some other key is cut out of the list. */
  lemma {:induction false} IndexOfAfterCut<K>(s: seq<K>, i: int, x: K)
    requires 0 <= i < |s| && s[i] != x
    ensures var o := IndexOf(s, x);
      IndexOf(s[..i] + s[i + 1..], x) == (if o == -1 then -1 else if o < i then o else o - 1)
    decreases i
  {
    var s' := s[..i] + s[i + 1..];
    if i == 0 {
      assert s' == s[1..];
    } else if s[0] != x {
      var t := s[1..];
      assert s'[1..] == t[..i - 1] + t[i..];
      IndexOfAfterCut(t, i - 1, x);
    }
  }

  /**
   * Remove keeps the lists aligned, deletes one occurrence of a present key,
   * and ignores an absent one. The pair removed is the first one, whose value
   * the indexer read.
   */
  lemma DeleteEffect<K, V>(t: Table<K, V>, k: K)
    requires Aligned(t)
    ensures Aligned(Delete(t, k))
    ensures k !in t.keys ==> Delete(t, k) == t
    ensures k in t.keys ==>
      var i := IndexOf(t.keys, k);
      && |Delete(t, k).keys| == |t.keys| - 1
      && multiset(Delete(t, k).keys) == multiset(t.keys) - multiset{k}
      && Delete(t, k).values == t.values[..i] + t.values[i + 1..]
      && Lookup(t, k) == Some(t.values[i])
      && multiset(Delete(t, k).values) == multiset(t.values) - multiset{t.values[i]}
  {
    var i := IndexOf(t.keys, k);
    if 0 <= i {
      var ks, vs := t.keys, t.values;
      assert ks == ks[..i] + [k] + ks[i + 1..];
      assert vs == vs[..i] + [vs[i]] + vs[i + 1..];
    }
  }

  /** After Remove(k), `k` reads as it does in the pairs after its first occurrence: its next value, or missing. */
  lemma DeleteThenLookup<K, V>(t: Table<K, V>, k: K)
    requires Aligned(t) && k in t.keys
    ensures var i := IndexOf(t.keys, k);
      Lookup(Delete(t, k), k) == Lookup(Table(t.keys[i + 1..], t.values[i + 1..]), k)
  {
    var i := IndexOf(t.keys, k);
    BeforeFirst(t.keys, k);
    LookupAfterPrefix(t.keys[..i], t.keys[i + 1..], t.values[..i], t.values[i + 1..], k);
  }

  /** No position before the first occurrence holds the key. */
  lemma BeforeFirst<K>(s: seq<K>, k: K)
    ensures k !in s[..if k in s then IndexOf(s, k) else |s|]
  {
    var pre := s[..if k in s then IndexOf(s, k) else |s|];
    assert forall j :: 0 <= j < |pre| ==> pre[j] == s[j];
  }

  /** A key absent from the leading pairs reads as it does in the pairs that follow them. */
  lemma LookupAfterPrefix<K, V>(pk: seq<K>, sk: seq<K>, pv: seq<V>, sv: seq<V>, k: K)
    requires |pk| == |pv| && |sk| == |sv| && k !in pk
    ensures Lookup(Table(pk + sk, pv + sv), k) == Lookup(Table(sk, sv), k)
  {
    IndexOfAfterPrefix(pk, sk, k);
    if k in sk {
      var j := IndexOf(sk, k);
      assert (pv + sv)[|pk| + j] == sv[j];
    }
  }

  /** A key absent from a prefix is found after it, shifted by the prefix's length. */
  lemma {:induction false} IndexOfAfterPrefix<K>(p: seq<K>, s: seq<K>, k: K)
    requires k !in p
    ensures IndexOf(p + s, k) == if k in s then |p| + IndexOf(s, k) else -1
  {
    if |p| > 0 {
      assert (p + s)[1..] == p[1..] + s;
      IndexOfAfterPrefix(p[1..], s, k);
    } else {
      assert p + s == s;
    }
  }

  /** Cutting position `i` out of both lists leaves the lookup of any other key unchanged. */
  lemma LookupAfterCut<K, V>(t: Table<K, V>, i: int, other: K)
    requires Aligned(t) && 0 <= i < |t.keys| && t.keys[i] != other
    ensures Lookup(Table(t.keys[..i] + t.keys[i + 1..], t.values[..i] + t.values[i + 1..]), other) == Lookup(t, other)
  {
    var t' := Table(t.keys[..i] + t.keys[i + 1..], t.values[..i] + t.values[i + 1..]);
    IndexOfAfterCut(t.keys, i, other);
    var o := IndexOf(t.keys, other);
    var o' := if o == -1 then -1 else if o < i then o else o - 1;
    LookupFromIndex(t, other, o);
    LookupFromIndex(t', other, o');
    if o != -1 {
      assert t'.values[o'] == t.values[o];
    }
  }

  /** The indexer reads the slot IndexOf names, or nothing. */
  lemma LookupFromIndex<K, V>(t: Table<K, V>, k: K, o: int)
    requires Aligned(t) && IndexOf(t.keys, k) == o
    ensures Lookup(t, k) == if o == -1 then None else Some(t.values[o])
  {
  }

  /** Remove leaves every other key reading as before. */
  lemma DeleteOther<K, V>(t: Table<K, V>, k: K, other: K)
    requires Aligned(t) && other != k
    ensures Lookup(Delete(t, k), other) == Lookup(t, other)
  {
    var i := IndexOf(t.keys, k);
    if 0 <= i {
      assert Delete(t, k) == Table(t.keys[..i] + t.keys[i + 1..], t.values[..i] + t.values[i + 1..]);
      LookupAfterCut(t, i, other);
    } else {
      assert Delete(t, k) == t;
    }
  }

  /** What PairsToMap holds after a prefix of pairs: the keys seen, each with its last value. */
  lemma {:induction false} PairsToMapLastWins<K, V>(ps: seq<(K, V)>, k: K)
    ensures k in PairsToMap(ps) <==> exists i :: 0 <= i < |ps| && ps[i].0 == k
    ensures k in PairsToMap(ps) ==>
      exists i :: 0 <= i < |ps| && ps[i].0 == k && PairsToMap(ps)[k] == ps[i].1 &&
        forall j :: i < j < |ps| ==> ps[j].0 != k
  {
    if |ps| > 0 {
      var init := ps[..|ps| - 1];
      PairsToMapLastWins(init, k);
      if ps[|ps| - 1].0 != k {
        if k in PairsToMap(init) {
          var i :| 0 <= i < |init| && init[i].0 == k && PairsToMap(init)[k] == init[i].1 &&
            forall j :: i < j < |init| ==> init[j].0 != k;
          assert ps[i] == init[i];
        }
        assert forall i :: 0 <= i < |init| ==> ps[i] == init[i];
      }
    }
  }

  /**
   * ToDictionary keeps every key the shorter list reaches and resolves a key
   * that occurs several times to its LAST value.
   */
  lemma ToMapLastWins<K, V>(t: Table<K, V>, k: K)
    requires Aligned(t)
    ensures k in ToMap(t) <==> k in t.keys
    ensures k in t.keys ==> ToMap(t)[k] == t.values[LastIndexOf(t.keys, k)]
  {
    var ps := Pairs(t);
    PairsToMapLastWins(ps, k);
    if k in t.keys {
      var i := IndexOf(t.keys, k);
      assert ps[i].0 == k;
      var j :| 0 <= j < |ps| && ps[j].0 == k && PairsToMap(ps)[k] == ps[j].1 &&
        forall m :: j < m < |ps| ==> ps[m].0 != k;
      assert t.keys[j] == k;
      var last := LastIndexOf(t.keys, k);
      assert ps[last].0 == k;
      assert j == last;
    } else {
      assert forall i :: 0 <= i < |ps| ==> ps[i].0 == t.keys[i];
    }
  }

  /**
   * Lookups resolve a duplicated key to its FIRST value while ToDictionary
   * resolves it to its LAST: the two views of one table disagree.
   */
  lemma FirstAndLastOccurrenceDisagree()
    ensures Lookup(Table([1, 1], [10, 20]), 1) == Some(10)
    ensures ToMap(Table([1, 1], [10, 20])) == map[1 := 20]
  {
    var t := Table([1, 1], [10, 20]);
    assert Pairs(t) == [(1, 10), (1, 20)];
    assert Pairs(t)[..1] == [(1, 10)];
    assert PairsToMap([(1, 10)]) == map[1 := 10] by {
      assert [(1, 10)][..0] == [];
    }
  }

  // ----- The object -----

  /** The dictionary object; its methods change `keys` and `values` in place. */
  class SerializableDictionary<K(==), V> {
    var keys: seq<K>
    var values: seq<V>

    function Contents(): Table<K, V>
      reads this
    {
      Table(keys, values)
    }

    /** Fills both lists from a standard dictionary's pairs, in its enumeration order; null gives an empty dictionary. */
    constructor (initial: Option<seq<(K, V)>>)
      ensures initial.None? ==> Contents() == Empty()
      ensures initial.Some? ==>
        |keys| == |values| == |initial.value| &&
        forall i :: 0 <= i < |initial.value| ==> (keys[i], values[i]) == initial.value[i]
    {
      var ks: seq<K> := [];
      var vs: seq<V> := [];
      if initial.Some? {
        var entries := initial.value;
        var i := 0;
        while i < |entries|
          invariant 0 <= i <= |entries|
          invariant |ks| == |vs| == i
          invariant forall j :: 0 <= j < i ==> (ks[j], vs[j]) == entries[j]
        {
          ks := ks + [entries[i].0];
          vs := vs + [entries[i].1];
          i := i + 1;
        }
      }
      keys := ks;
      values := vs;
    }

    /** keys.IndexOf(k), by a forward scan. */
    method IndexOfKey(k: K) returns (i: int)
      ensures i == IndexOf(keys, k)
    {
      i := 0;
      while i < |keys| && keys[i] != k
        invariant 0 <= i <= |keys|
        invariant forall j :: 0 <= j < i ==> keys[j] != k
      {
        i := i + 1;
      }
      if i == |keys| {
        i := -1;
      }
    }

    /** The indexer's getter: the value of the first occurrence, or the "invalid accessor" exception. */
    method GetItem(k: K) returns (r: Result<V>)
      ensures Has(Contents(), k) <==> r.Success?
      ensures r.Success? ==> Lookup(Contents(), k) == Some(r.value)
    {
      var index := IndexOfKey(k);
      if 0 <= index < |values| {
        r := Success(values[index]);
      } else {
        r := Failure("Invalid accessor");
      }
    }

    /** The indexer's setter. */
    method SetItem(k: K, v: V)
      modifies this
      ensures Contents() == Assign(old(Contents()), k, v)
    {
      var index := IndexOfKey(k);
      if 0 <= index < |values| {
        values := values[index := v];
      } else {
        keys := keys + [k];
        values := values + [v];
      }
    }

    /** SetValue delegates to the indexer's setter. */
    method SetValue(k: K, v: V)
      modifies this
      ensures Contents() == Assign(old(Contents()), k, v)
    {
      SetItem(k, v);
    }

    /** TryGetValue: Some(value) for (true, value); None for (false, default). It changes nothing. */
    method TryGetValue(k: K) returns (r: Option<V>)
      ensures r.Some? <==> Has(Contents(), k)
      ensures r == Lookup(Contents(), k)
    {
      var index := IndexOfKey(k);
      if 0 <= index < |values| {
        r := Some(values[index]);
      } else {
        r := None;
      }
    }

    /** Remove. */
    method Remove(k: K)
      modifies this
      ensures Contents() == Delete(old(Contents()), k)
    {
      var index := IndexOfKey(k);
      if 0 <= index < |values| {
        keys := keys[..index] + keys[index + 1..];
        values := values[..index] + values[index + 1..];
      }
    }

    /** Count reads the keys list only. */
    function Count(): (n: nat)
      reads this
      ensures Aligned(Contents()) ==> n == |Pairs(Contents())|
    {
      |keys|
    }

    /** ToDictionary: an index loop over both lists; a repeated key ends with its last value. */
    method ToDictionary() returns (dict: map<K, V>)
      ensures dict == ToMap(Contents())
    {
      var ps := Pairs(Contents());
      dict := map[];
      var n := Min(|keys|, |values|);
      for i := 0 to n
        invariant dict == PairsToMap(ps[..i])
      {
        assert ps[..i + 1][..i] == ps[..i];
        dict := dict[keys[i] := values[i]];
      }
      assert ps[..n] == ps;
    }

    /** The enumerator: the pairs it yields, in order. */
    method GetEnumerator() returns (pairs: seq<(K, V)>)
      ensures pairs == Pairs(Contents())
    {
      pairs := [];
      var n := Min(|keys|, |values|);
      for i := 0 to n
        invariant pairs == Pairs(Contents())[..i]
      {
        pairs := pairs + [(keys[i], values[i])];
      }
    }
  }
}
