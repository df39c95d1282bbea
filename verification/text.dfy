/** The string operations the catalog and the schema generator use:
    `str.rfind`, `str.replace(c, '')`, the `in` substring test, and the
    `stem` of a `pathlib.Path`. */
module Text {
  import opened SeqFacts

  /** `s.rfind(c)`: the index of the last `c` in `s`, or -1. */
  function RFind(s: string, c: char): (r: int)
    ensures -1 <= r < |s|
    ensures r >= 0 ==> s[r] == c
    ensures forall j :: r < j < |s| ==> s[j] != c
    ensures r == -1 <==> c !in s
  {
    if s == [] then -1
    else if s[|s| - 1] == c then |s| - 1
    else RFind(s[..|s| - 1], c)
  }

  /** `s.replace(c, '')` for a one-character `c`. */
  function RemoveAll(s: string, c: char): (r: string)
    ensures c !in r
    ensures forall x :: x != c ==> multiset(r)[x] == multiset(s)[x]
    ensures c !in s ==> r == s
  {
    if s == [] then []
    else
      assert s == [s[0]] + s[1..];
      if s[0] == c then RemoveAll(s[1..], c)
      else [s[0]] + RemoveAll(s[1..], c)
  }

  /** Removing `c` distributes over concatenation. */
  lemma {:induction false} RemoveAllAppend(s: string, t: string, c: char)
    ensures RemoveAll(s + t, c) == RemoveAll(s, c) + RemoveAll(t, c)
  {
    if s == [] {
      assert s + t == t;
    } else {
      assert (s + t)[0] == s[0];
      assert (s + t)[1..] == s[1..] + t;
      RemoveAllAppend(s[1..], t, c);
    }
  }

  /** `t` occurs in `s` at position `i`. */
  ghost predicate OccursAt(s: string, t: string, i: int)
  {
    0 <= i && i + |t| <= |s| && s[i..i + |t|] == t
  }

  /** Python's `t in s` on strings, computed by scanning left to right: it
      holds exactly when `t` occurs somewhere in `s`. */
  predicate HasSubstring(s: string, t: string)
    ensures HasSubstring(s, t) <==> exists i :: OccursAt(s, t, i)
    decreases |s|
  {
    if |s| < |t| then
      assert forall i :: !OccursAt(s, t, i);
      false
    else if s[..|t|] == t then
      assert OccursAt(s, t, 0);
      true
    else
      OccursShift(s, t);
      HasSubstring(s[1..], t)
  }

  /** When `t` does not start `s`, it occurs in `s` exactly when it occurs
      in the tail. */
  lemma OccursShift(s: string, t: string)
    requires |s| >= |t| && s[..|t|] != t
    ensures (exists i :: OccursAt(s, t, i)) <==> exists i :: OccursAt(s[1..], t, i)
  {
    forall i | OccursAt(s, t, i) ensures i >= 1 && OccursAt(s[1..], t, i - 1) {
      assert i != 0;
      TailSlice(s, i - 1, i - 1 + |t|);
    }
    forall i | OccursAt(s[1..], t, i) ensures OccursAt(s, t, i + 1) {
      TailSlice(s, i, i + |t|);
    }
  }

  /** `Path(p).name`: what follows the last `/`. */
  function BaseName(p: string): (r: string)
    ensures '/' !in r
    ensures |r| <= |p| && p[|p| - |r|..] == r
  {
    var i := RFind(p, '/');
    NotInTail(p, i, '/');
    p[i + 1..]
  }

  /** A character absent after position `i` is absent from the tail. */
  lemma NotInTail(s: string, i: int, c: char)
    requires -1 <= i < |s| && forall j :: i < j < |s| ==> s[j] != c
    ensures c !in s[i + 1..]
  {
    var t := s[i + 1..];
    forall j | 0 <= j < |t| ensures t[j] != c {
      assert t[j] == s[i + 1 + j];
    }
  }

  /** `Path(p).stem`: the name without its last suffix, where a suffix is a
      `.` that is neither the first nor the last character of the name. */
  function Stem(p: string): (r: string)
    ensures '/' !in r
  {
    var name := BaseName(p);
    var i := RFind(name, '.');
    if 0 < i < |name| - 1 then name[..i] else name
  }

  /** The name is the whole path when it has no `/`, and otherwise the part
      after its last `/`. */
  lemma BaseNameOf(p: string)
    ensures '/' !in p ==> BaseName(p) == p
    ensures '/' in p ==> |BaseName(p)| < |p| && p[|p| - |BaseName(p)| - 1] == '/'
  {
  }

  /** The stem is the whole name, or the part of it before a final suffix:
      a `.` past the first character followed by a non-empty, dot-free rest. */
  lemma StemOfName(p: string)
    ensures var name, r := BaseName(p), Stem(p);
            && |r| <= |name| && name[..|r|] == r
            && (|r| < |name| ==> 0 < |r| < |name| - 1 && name[|r|] == '.' && '.' !in name[|r| + 1..])
  {
    var name := BaseName(p);
    var i := RFind(name, '.');
    NotInTail(name, i, '.');
  }

  /** The stem is the whole name exactly when the name has no such suffix. */
  lemma StemWholeName(p: string)
    ensures var name := BaseName(p);
            Stem(p) == name <==> |name| == 0 || name[|name| - 1] == '.' || '.' !in name[1..]
  {
    var name := BaseName(p);
    var i := RFind(name, '.');
    if |name| > 0 && name[|name| - 1] != '.' {
      if 0 < i < |name| - 1 {
        assert name[1..][i - 1] == '.';
      } else {
        NotInTail(name, i, '.');
        assert i <= 0;
        assert name[1..] == name[i + 1..][1 - (i + 1)..];
      }
    }
  }

  /** The stem of a globbed `dir/name.ext` is `name`, for a non-empty
      `name` (which may itself contain dots) and a dot-free extension. */
  lemma StemOfGlobMatch(dir: string, name: string, ext: string)
    requires |name| > 0 && '/' !in name
    requires |ext| > 0 && '/' !in ext && '.' !in ext
    ensures Stem(dir + "/" + name + "." + ext) == name
  {
    var file := name + "." + ext;
    assert '/' !in file;
    LastSeparator(dir, file, '/');
    assert dir + "/" + name + "." + ext == dir + ['/'] + file;
    LastSeparator(name, ext, '.');
    assert file == name + ['.'] + ext;
    assert file[..|name|] == name;
  }

  /** In `a + [c] + b` with no `c` in `b`, the last `c` is the one joining them. */
  lemma {:induction false} LastSeparator(a: string, b: string, c: char)
    requires c !in b
    ensures RFind(a + [c] + b, c) == |a|
    decreases |b|
  {
    var s := a + [c] + b;
    if b == [] {
      assert s == a + [c];
    } else {
      var init := b[..|b| - 1];
      assert b == init + [b[|b| - 1]];
      assert s[..|s| - 1] == a + [c] + init;
      LastSeparator(a, init, c);
    }
  }
}
