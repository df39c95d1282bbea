/** The loop shape both catalog builders share: walk a sequence of paths,
    and for every path that is kept, write its value under its key,
    overwriting what an earlier path wrote. */
module Folds {
  import opened SeqFacts
  import opened Dicts
  import opened Sorting

  function PutEach<K(==), V>(items: seq<string>, keep: string -> bool, key: string -> K,
                         val: string -> V, acc: Dict<K, V>): Dict<K, V>
    decreases |items|
  {
    if items == [] then acc
    else
      var p := items[0];
      PutEach(items[1..], keep, key, val, if keep(p) then Put(acc, key(p), val(p)) else acc)
  }

  /** The keys the kept items write. */
  function KeysOf<K(==)>(items: seq<string>, keep: string -> bool, key: string -> K): set<K>
    decreases |items|
  {
    if items == [] then {}
    else (if keep(items[0]) then {key(items[0])} else {}) + KeysOf(items[1..], keep, key)
  }

  lemma {:induction false} KeysOfMembers<K>(items: seq<string>, keep: string -> bool, key: string -> K, k: K)
    ensures k in KeysOf(items, keep, key) <==> exists p :: p in items && keep(p) && key(p) == k
    decreases |items|
  {
    if items != [] {
      KeysOfMembers(items[1..], keep, key, k);
      assert forall p :: p in items <==> p == items[0] || p in items[1..];
    }
  }

  /** Item `i` is kept and no later kept item has its key. */
  predicate LastFor<K(==)>(items: seq<string>, keep: string -> bool, key: string -> K, i: int)
    requires 0 <= i < |items|
  {
    keep(items[i]) && forall m :: i < m < |items| ==> !(keep(items[m]) && key(items[m]) == key(items[i]))
  }

  /** The fold writes exactly the keys of the kept items. */
  lemma {:induction false} PutEachKeys<K, V>(items: seq<string>, keep: string -> bool, key: string -> K,
                                             val: string -> V, acc: Dict<K, V>)
    ensures PutEach(items, keep, key, val, acc).vals.Keys == acc.vals.Keys + KeysOf(items, keep, key)
    decreases |items|
  {
    if items != [] {
      var p := items[0];
      PutEachKeys(items[1..], keep, key, val, if keep(p) then Put(acc, key(p), val(p)) else acc);
    }
  }

  /** Keys no kept item has are left as they were. */
  lemma {:induction false} PutEachKeeps<K, V>(items: seq<string>, keep: string -> bool, key: string -> K,
                                              val: string -> V, acc: Dict<K, V>, k: K)
    requires k in acc.vals && k !in KeysOf(items, keep, key)
    ensures var r := PutEach(items, keep, key, val, acc); k in r.vals && r.vals[k] == acc.vals[k]
    decreases |items|
  {
    if items != [] {
      var p := items[0];
      PutEachKeeps(items[1..], keep, key, val, if keep(p) then Put(acc, key(p), val(p)) else acc, k);
    }
  }

  /** Later writes win: a key holds the value of the last kept item with it. */
  lemma {:induction false} PutEachLast<K, V>(items: seq<string>, keep: string -> bool, key: string -> K,
                                             val: string -> V, acc: Dict<K, V>, i: int)
    requires 0 <= i < |items| && LastFor(items, keep, key, i)
    ensures var r := PutEach(items, keep, key, val, acc);
            key(items[i]) in r.vals && r.vals[key(items[i])] == val(items[i])
    decreases |items|
  {
    var p := items[0];
    var acc' := if keep(p) then Put(acc, key(p), val(p)) else acc;
    if i == 0 {
      var rest := items[1..];
      if key(p) in KeysOf(rest, keep, key) {
        KeysOfMembers(rest, keep, key, key(p));
        assert false;
      }
      PutEachKeeps(rest, keep, key, val, acc', key(p));
    } else {
      assert LastFor(items[1..], keep, key, i - 1) by {
        forall m | i - 1 < m < |items| - 1 ensures items[1..][m] == items[m + 1] { }
      }
      PutEachLast(items[1..], keep, key, val, acc', i - 1);
    }
  }

  /** The keys of the kept items, in item order, repeats included. */
  function KeptKeys<K>(items: seq<string>, keep: string -> bool, key: string -> K): seq<K>
    decreases |items|
  {
    if items == [] then []
    else (if keep(items[0]) then [key(items[0])] else []) + KeptKeys(items[1..], keep, key)
  }

  /** Listed or collected, the kept items give the same keys. */
  lemma {:induction false} KeptKeysOf<K>(items: seq<string>, keep: string -> bool, key: string -> K)
    ensures (set k | k in KeptKeys(items, keep, key)) == KeysOf(items, keep, key)
    decreases |items|
  {
    if items != [] {
      KeptKeysOf(items[1..], keep, key);
    }
  }

  /** Existing keys keep their position; the new keys follow in the order
      of the first kept item that has each. */
  lemma {:induction false} PutEachOrder<K, V>(items: seq<string>, keep: string -> bool, key: string -> K,
                                              val: string -> V, acc: Dict<K, V>)
    ensures PutEach(items, keep, key, val, acc).keys == acc.keys + Fresh(KeptKeys(items, keep, key), acc.vals.Keys)
    decreases |items|
  {
    if items != [] {
      var p := items[0];
      var acc' := if keep(p) then Put(acc, key(p), val(p)) else acc;
      var rest := KeptKeys(items[1..], keep, key);
      PutEachOrder(items[1..], keep, key, val, acc');
      if keep(p) {
        var ks := KeptKeys(items, keep, key);
        assert ks == [key(p)] + rest;
        assert ks[0] == key(p) && ks[1..] == rest;
        if key(p) !in acc.vals {
          assert acc'.vals.Keys == acc.vals.Keys + {key(p)};
          ConcatAssoc(acc.keys, [key(p)], Fresh(rest, acc'.vals.Keys));
        }
      } else {
        assert KeptKeys(items, keep, key) == [] + rest == rest;
        assert PutEach(items, keep, key, val, acc) == PutEach(items[1..], keep, key, val, acc);
      }
    }
  }

  /** Started from an empty dict, the fold lists each key at the first kept
      item that has it. */
  lemma PutEachOrderFromEmpty<K, V>(items: seq<string>, keep: string -> bool, key: string -> K, val: string -> V)
    ensures PutEach(items, keep, key, val, Empty()).keys == Fresh(KeptKeys(items, keep, key), {})
  {
    var e: Dict<K, V> := Empty();
    PutEachOrder(items, keep, key, val, e);
    assert e.vals.Keys == {};
  }

  /** Every value the fold holds was there before or was written by a kept
      item with that key. */
  lemma {:induction false} PutEachOrigin<K, V>(items: seq<string>, keep: string -> bool, key: string -> K,
                                               val: string -> V, acc: Dict<K, V>, k: K)
    requires k in PutEach(items, keep, key, val, acc).vals
    ensures var r := PutEach(items, keep, key, val, acc);
            || (k in acc.vals && r.vals[k] == acc.vals[k])
            || exists p :: p in items && keep(p) && key(p) == k && r.vals[k] == val(p)
    decreases |items|
  {
    if items != [] {
      var p := items[0];
      var acc' := if keep(p) then Put(acc, key(p), val(p)) else acc;
      PutEachOrigin(items[1..], keep, key, val, acc', k);
      var r := PutEach(items, keep, key, val, acc);
      if k in acc'.vals && r.vals[k] == acc'.vals[k] {
        if keep(p) && k == key(p) {
          assert p in items;
        }
      } else {
        var q :| q in items[1..] && keep(q) && key(q) == k && r.vals[k] == val(q);
        assert q in items;
      }
    }
  }

  /** A kept item's key has a last kept item. */
  lemma {:induction false} LastExists<K>(items: seq<string>, keep: string -> bool, key: string -> K, j: int)
    returns (i: int)
    requires 0 <= j < |items| && keep(items[j])
    ensures j <= i < |items| && key(items[i]) == key(items[j]) && LastFor(items, keep, key, i)
    decreases |items| - j
  {
    if exists m :: j < m < |items| && keep(items[m]) && key(items[m]) == key(items[j]) {
      var m :| j < m < |items| && keep(items[m]) && key(items[m]) == key(items[j]);
      i := LastExists(items, keep, key, m);
    } else {
      i := j;
    }
  }

  /** Folding the items sorted longest first: the value kept for a key is
      that of one of the shortest kept items with that key. */
  lemma ShortestWins<K, V>(items: seq<string>, keep: string -> bool, key: string -> K,
                           val: string -> V, acc: Dict<K, V>, p: string)
    requires p in items && keep(p)
    ensures var r := PutEach(SortByLengthDesc(items), keep, key, val, acc);
            && key(p) in r.vals
            && exists q :: q in items && keep(q) && key(q) == key(p) && |q| <= |p| && r.vals[key(p)] == val(q)
  {
    var sorted := SortByLengthDesc(items);
    SortedMembers(items);
    var j :| 0 <= j < |sorted| && sorted[j] == p;
    var i := LastExists(sorted, keep, key, j);
    PutEachLast(sorted, keep, key, val, acc, i);
    LongerBefore(sorted, j, i);
    assert sorted[i] in sorted;
  }

  /** In a longest-first sequence a later path is no longer. */
  lemma LongerBefore(s: seq<string>, j: int, i: int)
    requires LongestFirst(s) && 0 <= j <= i < |s|
    ensures |s[i]| <= |s[j]|
  {
  }
}
