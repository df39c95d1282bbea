/** `sorted(paths, key=len, reverse=True)`: a stable sort of path strings
    by descending length. Paths of equal length keep their listing order. */
module Sorting {
  import opened SeqFacts

  /** No path is longer than one before it. */
  predicate LongestFirst(s: seq<string>)
  {
    forall i, j :: 0 <= i < j < |s| ==> |s[i]| >= |s[j]|
  }

  /** Puts `x` after every path at least as long as it. */
  function Insert(x: string, s: seq<string>): (r: seq<string>)
    requires LongestFirst(s)
    ensures LongestFirst(r)
    ensures multiset(r) == multiset(s) + multiset{x}
  {
    if s == [] then [x]
    else if |x| > |s[0]| then [x] + s
    else
      var rest := Insert(x, s[1..]);
      assert s == [s[0]] + s[1..];
      HeadLongest(s[0], s[1..], x, rest);
      [s[0]] + rest
  }

  /** A path at least as long as `x` and as all of `tail` may head any
      arrangement of `tail` and `x`. */
  lemma HeadLongest(h: string, tail: seq<string>, x: string, rest: seq<string>)
    requires LongestFirst([h] + tail) && |x| <= |h|
    requires LongestFirst(rest) && multiset(rest) == multiset(tail) + multiset{x}
    ensures LongestFirst([h] + rest)
  {
    forall j | 0 <= j < |rest| ensures |rest[j]| <= |h| {
      assert rest[j] in multiset(rest);
      if rest[j] != x {
        assert rest[j] in multiset(tail);
        var k :| 0 <= k < |tail| && tail[k] == rest[j];
        assert ([h] + tail)[k + 1] == tail[k] && ([h] + tail)[0] == h;
      }
    }
    assert forall j :: 0 < j < |[h] + rest| ==> ([h] + rest)[j] == rest[j - 1];
  }

  /** Sorts by inserting the paths one by one, each after the earlier
      paths of the same length. */
  function SortByLengthDesc(s: seq<string>): (r: seq<string>)
    ensures LongestFirst(r)
    ensures multiset(r) == multiset(s)
  {
    if s == [] then []
    else
      var init := s[..|s| - 1];
      assert s == init + [s[|s| - 1]];
      Insert(s[|s| - 1], SortByLengthDesc(init))
  }

  /** Sorting neither adds nor drops a path. */
  lemma SortedMembers(s: seq<string>)
    ensures forall p :: p in SortByLengthDesc(s) <==> p in s
  {
    forall p ensures p in SortByLengthDesc(s) <==> p in s {
      assert p in SortByLengthDesc(s) <==> p in multiset(SortByLengthDesc(s));
    }
  }

  /** The paths of length `n`, in order. */
  function OfLength(s: seq<string>, n: nat): seq<string>
  {
    if s == [] then []
    else (if |s[0]| == n then [s[0]] else []) + OfLength(s[1..], n)
  }

  lemma {:induction false} OfLengthAppend(a: seq<string>, b: seq<string>, n: nat)
    ensures OfLength(a + b, n) == OfLength(a, n) + OfLength(b, n)
  {
    if a == [] {
      assert a + b == b;
    } else {
      assert (a + b)[0] == a[0] && (a + b)[1..] == a[1..] + b;
      OfLengthAppend(a[1..], b, n);
    }
  }

  lemma {:induction false} OfLengthNone(s: seq<string>, n: nat)
    requires forall i :: 0 <= i < |s| ==> |s[i]| < n
    ensures OfLength(s, n) == []
  {
    if s != [] {
      OfLengthNone(s[1..], n);
    }
  }

  /** The path of length `n`, if `x` is one. */
  function Alone(x: string, n: nat): seq<string>
  {
    if |x| == n then [x] else []
  }

  lemma OfLengthCons(h: string, t: seq<string>, n: nat)
    ensures OfLength([h] + t, n) == Alone(h, n) + OfLength(t, n)
  {
    assert ([h] + t)[0] == h && ([h] + t)[1..] == t;
  }

  /** Inserting `x` puts it after every path of its length. */
  lemma {:induction false} InsertStable(x: string, s: seq<string>, n: nat)
    requires LongestFirst(s)
    ensures OfLength(Insert(x, s), n) == OfLength(s, n) + Alone(x, n)
  {
    if s == [] {
      OfLengthCons(x, [], n);
      assert OfLength([], n) == [];
    } else if |x| > |s[0]| {
      InsertFront(x, s, n);
    } else {
      InsertStable(x, s[1..], n);
      InsertBehind(x, s, n);
    }
  }

  /** `x` longer than every path goes first; none of those has its length. */
  lemma InsertFront(x: string, s: seq<string>, n: nat)
    requires LongestFirst(s) && s != [] && |x| > |s[0]|
    ensures OfLength(Insert(x, s), n) == OfLength(s, n) + Alone(x, n)
  {
    assert Insert(x, s) == [x] + s;
    OfLengthCons(x, s, n);
    if |x| == n {
      OfLengthNone(s, n);
    }
  }

  /** `x` goes behind the head of `s`, as into the tail. */
  lemma InsertBehind(x: string, s: seq<string>, n: nat)
    requires LongestFirst(s) && s != [] && |x| <= |s[0]|
    requires OfLength(Insert(x, s[1..]), n) == OfLength(s[1..], n) + Alone(x, n)
    ensures OfLength(Insert(x, s), n) == OfLength(s, n) + Alone(x, n)
  {
    var rest := Insert(x, s[1..]);
    var a, b, c := Alone(s[0], n), OfLength(s[1..], n), Alone(x, n);
    assert Insert(x, s) == [s[0]] + rest;
    OfLengthCons(s[0], rest, n);
    assert OfLength(Insert(x, s), n) == a + (b + c);
    OfLengthCons(s[0], s[1..], n);
    ConsTail(s);
    ConcatAssoc(a, b, c);
  }

  /** The sort is stable: the paths of each length keep their order. */
  lemma {:induction false} SortStable(s: seq<string>, n: nat)
    ensures OfLength(SortByLengthDesc(s), n) == OfLength(s, n)
  {
    if s != [] {
      var init := s[..|s| - 1];
      var last := s[|s| - 1];
      var sorted := SortByLengthDesc(init);
      assert SortByLengthDesc(s) == Insert(last, sorted);
      SortStable(init, n);
      InsertStable(last, sorted, n);
      SnocInit(s);
      OfLengthSnoc(init, last, n);
    }
  }

  /** Filtering `init + [last]` filters `init`, then `last`. */
  lemma OfLengthSnoc(init: seq<string>, last: string, n: nat)
    ensures OfLength(init + [last], n) == OfLength(init, n) + Alone(last, n)
  {
    OfLengthAppend(init, [last], n);
    OfLengthCons(last, [], n);
    AppendEmpty([last]);
  }
}
