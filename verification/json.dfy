/** The JSON/YAML documents the schema generator reads and writes.
    Object members are a map: member order is a serialisation detail. */
module JsonValues {
  import opened Wrappers

  datatype Json =
    | Null
    | Bool(b: bool)
    | Num(n: int)
    | Str(s: string)
    | Arr(items: seq<Json>)
    | Obj(fields: map<string, Json>)

  /** The members of a JSON object, the shape a Python `dict` is built in. */
  type Fields = map<string, Json>

  /** `d.get(k, default)` */
  function GetOr(d: Fields, k: string, default: Json): (r: Json)
    ensures k in d ==> r == d[k]
    ensures k !in d ==> r == default
  {
    if k in d then d[k] else default
  }

  /** Follows a path of member names from `j`; `None` as soon as a step is
      not an object or lacks the member. */
  function Lookup(j: Json, path: seq<string>): (r: Option<Json>)
    ensures path == [] ==> r == Some(j)
    ensures |path| == 1 ==> (r.Some? <==> j.Obj? && path[0] in j.fields)
  {
    if path == [] then Some(j)
    else if j.Obj? && path[0] in j.fields then Lookup(j.fields[path[0]], path[1..])
    else None
  }

  /** One step of a lookup. */
  lemma LookupCons(j: Json, k: string, rest: seq<string>)
    requires j.Obj? && k in j.fields
    ensures Lookup(j, [k] + rest) == Lookup(j.fields[k], rest)
  {
    assert ([k] + rest)[0] == k && ([k] + rest)[1..] == rest;
  }

  /** Looking up `p + q` is looking up `p`, then `q` from there. */
  lemma {:induction false} LookupAppend(j: Json, p: seq<string>, q: seq<string>)
    ensures Lookup(j, p + q) ==
      (match Lookup(j, p) case None => None case Some(k) => Lookup(k, q))
  {
    if p != [] {
      assert (p + q)[0] == p[0];
      assert (p + q)[1..] == p[1..] + q;
      if j.Obj? && p[0] in j.fields {
        LookupAppend(j.fields[p[0]], p[1..], q);
      }
    } else {
      assert p + q == q;
    }
  }
}
