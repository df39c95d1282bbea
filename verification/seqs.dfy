/** Small facts about sequences and maps that the proofs elsewhere cite. */
module SeqFacts {

  /** A non-empty sequence is its head and its tail. */
  lemma MembersOfTail<K>(ks: seq<K>)
    requires ks != []
    ensures forall k :: k in ks <==> k == ks[0] || k in ks[1..]
    ensures (set k | k in ks) == {ks[0]} + (set k | k in ks[1..])
  {
    assert ks == [ks[0]] + ks[1..];
  }

  lemma ConsTail<T>(s: seq<T>)
    requires s != []
    ensures [s[0]] + s[1..] == s
  {
  }

  /** Concatenation regroups freely. */
  lemma ConcatAssoc<T>(a: seq<T>, b: seq<T>, c: seq<T>)
    ensures a + (b + c) == (a + b) + c
  {
  }

  /** A non-empty sequence is its front and its last element. */
  lemma SnocInit<T>(s: seq<T>)
    requires s != []
    ensures s == s[..|s| - 1] + [s[|s| - 1]]
  {
  }

  lemma AppendEmpty<T>(s: seq<T>)
    ensures s + [] == s
  {
  }

  /** Merging into an empty map changes nothing. */
  lemma MapUnionEmpty<K, V>(m: map<K, V>)
    ensures map[] + m == m
  {
    assert (map[] + m).Keys == m.Keys;
  }

  /** Map merges regroup freely. */
  lemma MapUnionAssoc<K, V>(a: map<K, V>, b: map<K, V>, c: map<K, V>)
    ensures (a + b) + c == a + (b + c)
  {
  }

  /** A slice of the tail is the slice one further along. */
  lemma TailSlice<T>(s: seq<T>, i: int, j: int)
    requires 0 <= i <= j < |s|
    ensures s[1..][i..j] == s[i + 1..j + 1]
  {
    assert forall k :: 0 <= k < j - i ==> s[1..][i..j][k] == s[i + 1 + k];
  }
}
