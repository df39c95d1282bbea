/** Python's `dict` as the catalog code uses it: a map whose keys also keep
    the order of their first insertion. Overwriting an existing key changes
    its value but not its position; iteration follows `keys`. */
module Dicts {
  import opened SeqFacts
  import opened Wrappers

  datatype RawDict<K, V> = RawDict(keys: seq<K>, vals: map<K, V>) {
    /** `keys` lists every key of `vals` exactly once. */
    predicate Valid() {
      && (forall i, j :: 0 <= i < j < |keys| ==> keys[i] != keys[j])
      && vals.Keys == (set k | k in keys)
    }
  }

  type Dict<K, V> = d: RawDict<K, V> | d.Valid() witness RawDict([], map[])

  function Empty<K, V>(): (r: Dict<K, V>)
    ensures r.keys == [] && r.vals == map[]
  {
    RawDict([], map[])
  }

  /** `d.get(k)` */
  function Get<K, V>(d: Dict<K, V>, k: K): (r: Option<V>)
    ensures r.Some? <==> k in d.keys
    ensures r.Some? ==> r.value == d.vals[k]
  {
    if k in d.vals then Some(d.vals[k]) else None
  }

  /** `d[k] = v`: a new key goes to the end, an existing key keeps its place. */
  function Put<K, V>(d: Dict<K, V>, k: K, v: V): (r: Dict<K, V>)
    ensures r.vals == d.vals[k := v]
    ensures k in d.keys ==> r.keys == d.keys
    ensures k !in d.keys ==> r.keys == d.keys + [k]
  {
    if k in d.vals then RawDict(d.keys, d.vals[k := v])
    else RawDict(d.keys + [k], d.vals[k := v])
  }

  /** Writes `m[k]` for each `k` of `ks`, left to right. */
  function PutAll<K, V>(d: Dict<K, V>, ks: seq<K>, m: map<K, V>): Dict<K, V>
    requires forall k :: k in ks ==> k in m
    decreases |ks|
  {
    if ks == [] then d else PutAll(Put(d, ks[0], m[ks[0]]), ks[1..], m)
  }

  /** After `PutAll`, the keys are the old ones and those written. */
  lemma {:induction false} PutAllKeys<K, V>(d: Dict<K, V>, ks: seq<K>, m: map<K, V>)
    requires forall k :: k in ks ==> k in m
    ensures PutAll(d, ks, m).vals.Keys == d.vals.Keys + (set k | k in ks)
    decreases |ks|
  {
    if ks != [] {
      PutAllKeys(Put(d, ks[0], m[ks[0]]), ks[1..], m);
      MembersOfTail(ks);
    }
  }

  /** Each written key holds `m`'s value; the others keep theirs. */
  lemma {:induction false} PutAllVals<K, V>(d: Dict<K, V>, ks: seq<K>, m: map<K, V>, k: K)
    requires forall k :: k in ks ==> k in m
    requires k in PutAll(d, ks, m).vals
    ensures k in ks ==> PutAll(d, ks, m).vals[k] == m[k]
    ensures k !in ks ==> k in d.vals && PutAll(d, ks, m).vals[k] == d.vals[k]
    decreases |ks|
  {
    if ks == [] {
    } else {
      var d1 := Put(d, ks[0], m[ks[0]]);
      PutAllVals(d1, ks[1..], m, k);
      MembersOfTail(ks);
    }
  }

  /** The keys of `ks` not in `seen`, each once, in the order of its first
      occurrence in `ks`: the keys a run of writes adds to a dict holding
      `seen`, in the order the dict then lists them. */
  function Fresh<K>(ks: seq<K>, seen: set<K>): seq<K>
    decreases |ks|
  {
    if ks == [] then []
    else if ks[0] in seen then Fresh(ks[1..], seen)
    else [ks[0]] + Fresh(ks[1..], seen + {ks[0]})
  }

  /** A key is fresh exactly when `ks` has it and `seen` does not. */
  lemma {:induction false} FreshMembers<K>(ks: seq<K>, seen: set<K>, x: K)
    ensures x in Fresh(ks, seen) <==> x in ks && x !in seen
    decreases |ks|
  {
    if ks != [] {
      MembersOfTail(ks);
      if ks[0] in seen {
        FreshMembers(ks[1..], seen, x);
      } else {
        FreshMembers(ks[1..], seen + {ks[0]}, x);
      }
    }
  }

  /** `x` occurs in `ks` before any occurrence of `y`. */
  ghost predicate FirstBefore<K>(ks: seq<K>, x: K, y: K)
  {
    exists a :: 0 <= a < |ks| && ks[a] == x && forall b :: 0 <= b <= a ==> ks[b] != y
  }

  /** The order is that of first occurrences: when `x` precedes `y` among
      the fresh keys, `ks` holds `x` before any occurrence of `y`. In
      particular no key is listed twice. */
  lemma {:induction false} FreshBefore<K>(ks: seq<K>, seen: set<K>, i: int, j: int)
    requires 0 <= i < j < |Fresh(ks, seen)|
    ensures FirstBefore(ks, Fresh(ks, seen)[i], Fresh(ks, seen)[j])
    decreases |ks|
  {
    var r := Fresh(ks, seen);
    if ks[0] in seen {
      FreshBefore(ks[1..], seen, i, j);
      FreshMembers(ks[1..], seen, r[j]);
      BeforeInTail(ks, r[i], r[j]);
    } else {
      var rest := Fresh(ks[1..], seen + {ks[0]});
      assert r == [ks[0]] + rest;
      FreshMembers(ks[1..], seen + {ks[0]}, rest[j - 1]);
      assert r[j] == rest[j - 1] && r[j] != ks[0];
      if i == 0 {
        BeforeAtHead(ks, r[j]);
      } else {
        FreshBefore(ks[1..], seen + {ks[0]}, i - 1, j - 1);
        BeforeInTail(ks, r[i], r[j]);
      }
    }
  }

  /** The head comes before anything else. */
  lemma BeforeAtHead<K>(ks: seq<K>, y: K)
    requires ks != [] && ks[0] != y
    ensures FirstBefore(ks, ks[0], y)
  {
    assert forall b :: 0 <= b <= 0 ==> ks[b] != y;
  }

  /** An order found in the tail holds in the whole when the head is not `y`. */
  lemma BeforeInTail<K>(ks: seq<K>, x: K, y: K)
    requires ks != [] && FirstBefore(ks[1..], x, y) && ks[0] != y
    ensures FirstBefore(ks, x, y)
  {
    var a :| 0 <= a < |ks| - 1 && ks[1..][a] == x && forall b :: 0 <= b <= a ==> ks[1..][b] != y;
    forall b | 0 < b <= a + 1 ensures ks[b] != y { assert ks[b] == ks[1..][b - 1]; }
    assert ks[a + 1] == x;
  }

  /** Fresh keys of a concatenation: those of the front, then those of the
      back that the front did not already give. */
  lemma {:induction false} FreshAppend<K>(a: seq<K>, b: seq<K>, seen: set<K>)
    ensures Fresh(a + b, seen) == Fresh(a, seen) + Fresh(b, seen + set x | x in a)
    decreases |a|
  {
    if a == [] {
      assert a + b == b;
      assert seen + (set x | x in a) == seen;
    } else {
      assert (a + b)[0] == a[0] && (a + b)[1..] == a[1..] + b;
      MembersOfTail(a);
      if a[0] in seen {
        FreshAppend(a[1..], b, seen);
        assert seen + (set x | x in a[1..]) == seen + (set x | x in a);
      } else {
        var seen' := seen + {a[0]};
        FreshAppend(a[1..], b, seen');
        assert seen' + (set x | x in a[1..]) == seen + (set x | x in a);
        ConcatAssoc([a[0]], Fresh(a[1..], seen'), Fresh(b, seen + set x | x in a));
      }
    }
  }

  /** Into an empty dict, the fresh keys are all there is. */
  lemma FreshFromEmpty<K, V>(ks: seq<K>)
    ensures var e: Dict<K, V> := Empty(); e.keys + Fresh(ks, e.vals.Keys) == Fresh(ks, {})
  {
    var e: Dict<K, V> := Empty();
    assert e.vals.Keys == {};
  }

  /** The old keys keep their order at the front; the written keys that are
      new follow, in the order of their first write. */
  lemma {:induction false} PutAllOrder<K, V>(d: Dict<K, V>, ks: seq<K>, m: map<K, V>)
    requires forall k :: k in ks ==> k in m
    ensures PutAll(d, ks, m).keys == d.keys + Fresh(ks, d.vals.Keys)
    decreases |ks|
  {
    if ks != [] {
      var d1 := Put(d, ks[0], m[ks[0]]);
      PutAllOrder(d1, ks[1..], m);
      if ks[0] !in d.vals {
        assert d1.vals.Keys == d.vals.Keys + {ks[0]};
        ConcatAssoc(d.keys, [ks[0]], Fresh(ks[1..], d1.vals.Keys));
      }
    }
  }

  /** `{**a, **b}`: every key of either; on a clash, `b`'s value. The keys
      of `a` come first, then those only `b` has, in `b`'s order. */
  function Union<K, V>(a: Dict<K, V>, b: Dict<K, V>): (r: Dict<K, V>)
    ensures r.vals == a.vals + b.vals
    ensures r.keys == a.keys + Fresh(b.keys, a.vals.Keys)
  {
    var r := PutAll(a, b.keys, b.vals);
    PutAllKeys(a, b.keys, b.vals);
    PutAllOrder(a, b.keys, b.vals);
    forall k | k in r.vals ensures r.vals[k] == (a.vals + b.vals)[k] {
      PutAllVals(a, b.keys, b.vals, k);
    }
    assert r.vals.Keys == (a.vals + b.vals).Keys;
    r
  }
}
