/** What a schema accepts: the meaning of the draft 2020-12 keywords the
    generated schemas use, evaluated against an instance. A verdict is
    `Some(true)` (valid), `Some(false)` (invalid) or `None` (unknown: a
    keyword outside this subset, a reference the store does not hold, an
    unknown type name, or nesting deeper than `fuel`). Verdicts combine as
    in three-valued logic, so a known `false` conjunct or `true` disjunct
    decides regardless of unknown ones. */
module Evaluation {
  import opened Wrappers
  import opened JsonValues

  function And(a: Option<bool>, b: Option<bool>): (r: Option<bool>)
    ensures r == Some(true) <==> a == Some(true) && b == Some(true)
    ensures r == Some(false) <==> a == Some(false) || b == Some(false)
  {
    if a == Some(false) || b == Some(false) then Some(false)
    else if a == Some(true) && b == Some(true) then Some(true)
    else None
  }

  function Or(a: Option<bool>, b: Option<bool>): (r: Option<bool>)
    ensures r == Some(true) <==> a == Some(true) || b == Some(true)
    ensures r == Some(false) <==> a == Some(false) && b == Some(false)
  {
    if a == Some(true) || b == Some(true) then Some(true)
    else if a == Some(false) && b == Some(false) then Some(false)
    else None
  }

  lemma AndTrue(v: Option<bool>)
    ensures And(Some(true), v) == v
  {
    match v
    case None =>
    case Some(b) =>
  }

  function Not(a: Option<bool>): Option<bool>
  {
    match a case Some(b) => Some(!b) case None => None
  }

  /** Keywords that do not affect validity. */
  const Annotations: set<string> := {"$schema", "$id", "title", "description", "$dynamicAnchor"}

  /** Keywords this evaluator gives a meaning to. */
  const Applicators: set<string> :=
    {"type", "properties", "additionalProperties", "items", "anyOf", "oneOf", "$ref"}

  /** The verdict of `schema` on `inst`; `$ref` is resolved by exact id in `store`. */
  function Eval(fuel: nat, store: map<string, Json>, schema: Json, inst: Json): Option<bool>
    decreases fuel, 0, 0
  {
    if fuel == 0 then None
    else match schema
      case Bool(b) => Some(b)
      case Obj(kw) =>
        if !(kw.Keys <= Annotations + Applicators) then None
        else Keywords(fuel - 1, store, kw, inst)
      case _ => None
  }

  /** Every keyword present must hold. */
  function Keywords(fuel: nat, store: map<string, Json>, kw: Fields, inst: Json): Option<bool>
    decreases fuel, 3, 0
  {
    And(TypeKw(kw, inst),
    And(AdditionalKw(kw, inst),
    And(PropertiesKw(fuel, store, kw, inst),
    And(ItemsKw(fuel, store, kw, inst),
    And(AnyOfKw(fuel, store, kw, inst),
    And(OneOfKw(fuel, store, kw, inst), RefKw(fuel, store, kw, inst)))))))
  }

  /** The instance is of the JSON type named (`None` for a name this
      evaluator does not know, such as a CWL type). */
  function HasType(t: string, inst: Json): Option<bool>
  {
    if t == "object" then Some(inst.Obj?)
    else if t == "array" then Some(inst.Arr?)
    else if t == "string" then Some(inst.Str?)
    else if t == "boolean" then Some(inst.Bool?)
    else if t == "null" then Some(inst.Null?)
    else if t == "integer" || t == "number" then Some(inst.Num?)
    else None
  }

  function TypeKw(kw: Fields, inst: Json): Option<bool>
  {
    if "type" !in kw then Some(true)
    else match kw["type"]
      case Str(t) => HasType(t, inst)
      case _ => None
  }

  /** `additionalProperties`: `false` admits only the members `properties` names. */
  function AdditionalKw(kw: Fields, inst: Json): Option<bool>
  {
    if "additionalProperties" !in kw || !inst.Obj? then Some(true)
    else match kw["additionalProperties"]
      case Bool(true) => Some(true)
      case Bool(false) =>
        var named := if "properties" in kw && kw["properties"].Obj? then kw["properties"].fields.Keys else {};
        Some(inst.fields.Keys <= named)
      case _ => None
  }

  /** `properties`: each member the instance has is valid against its schema. */
  function PropertiesKw(fuel: nat, store: map<string, Json>, kw: Fields, inst: Json): Option<bool>
    decreases fuel, 2, 0
  {
    if "properties" !in kw || !inst.Obj? then Some(true)
    else match kw["properties"]
      case Obj(ps) =>
        if exists k :: k in ps && k in inst.fields && Eval(fuel, store, ps[k], inst.fields[k]) == Some(false) then Some(false)
        else if forall k :: k in ps && k in inst.fields ==> Eval(fuel, store, ps[k], inst.fields[k]) == Some(true) then Some(true)
        else None
      case _ => None
  }

  function ItemsKw(fuel: nat, store: map<string, Json>, kw: Fields, inst: Json): Option<bool>
    decreases fuel, 2, 0
  {
    if "items" !in kw || !inst.Arr? then Some(true)
    else AllItems(fuel, store, kw["items"], inst.items)
  }

  function AllItems(fuel: nat, store: map<string, Json>, schema: Json, items: seq<Json>): Option<bool>
    decreases fuel, 1, |items|
  {
    if items == [] then Some(true)
    else And(Eval(fuel, store, schema, items[0]), AllItems(fuel, store, schema, items[1..]))
  }

  function AnyOfKw(fuel: nat, store: map<string, Json>, kw: Fields, inst: Json): Option<bool>
    decreases fuel, 2, 0
  {
    if "anyOf" !in kw then Some(true)
    else match kw["anyOf"]
      case Arr(alts) => Any(fuel, store, alts, inst)
      case _ => None
  }

  /** Some alternative holds. */
  function Any(fuel: nat, store: map<string, Json>, alts: seq<Json>, inst: Json): Option<bool>
    decreases fuel, 1, |alts|
  {
    if alts == [] then Some(false)
    else Or(Eval(fuel, store, alts[0], inst), Any(fuel, store, alts[1..], inst))
  }

  function OneOfKw(fuel: nat, store: map<string, Json>, kw: Fields, inst: Json): Option<bool>
    decreases fuel, 2, 0
  {
    if "oneOf" !in kw then Some(true)
    else match kw["oneOf"]
      case Arr(alts) =>
        (match Holding(fuel, store, alts, inst) case Some(n) => Some(n == 1) case None => None)
      case _ => None
  }

  /** How many alternatives hold, when every verdict is known. */
  function Holding(fuel: nat, store: map<string, Json>, alts: seq<Json>, inst: Json): Option<nat>
    decreases fuel, 1, |alts|
  {
    if alts == [] then Some(0)
    else match (Eval(fuel, store, alts[0], inst), Holding(fuel, store, alts[1..], inst))
      case (Some(b), Some(n)) => Some(if b then n + 1 else n)
      case _ => None
  }

  function RefKw(fuel: nat, store: map<string, Json>, kw: Fields, inst: Json): Option<bool>
    decreases fuel, 2, 0
  {
    if "$ref" !in kw then Some(true)
    else match kw["$ref"]
      case Str(id) => if id in store then Eval(fuel, store, store[id], inst) else None
      case _ => None
  }

  /** The empty schema accepts every instance. */
  lemma EmptyAcceptsAll(fuel: nat, store: map<string, Json>, inst: Json)
    requires fuel >= 1
    ensures Eval(fuel, store, Obj(map[]), inst) == Some(true)
  {
    var kw: Fields := map[];
    assert PropertiesKw(fuel - 1, store, kw, inst) == Some(true);
    assert ItemsKw(fuel - 1, store, kw, inst) == Some(true);
    assert AnyOfKw(fuel - 1, store, kw, inst) == Some(true);
    assert OneOfKw(fuel - 1, store, kw, inst) == Some(true);
    assert RefKw(fuel - 1, store, kw, inst) == Some(true);
    assert Keywords(fuel - 1, store, kw, inst) == Some(true);
  }

  /** A schema holding only `$ref` is the referenced schema. */
  lemma RefOnly(fuel: nat, store: map<string, Json>, id: string, inst: Json)
    requires fuel >= 1 && id in store
    ensures Eval(fuel, store, Obj(map["$ref" := Str(id)]), inst) == Eval(fuel - 1, store, store[id], inst)
  {
    var kw := map["$ref" := Str(id)];
    assert kw.Keys <= Annotations + Applicators;
    assert PropertiesKw(fuel - 1, store, kw, inst) == Some(true);
    assert ItemsKw(fuel - 1, store, kw, inst) == Some(true);
    assert AnyOfKw(fuel - 1, store, kw, inst) == Some(true);
    assert OneOfKw(fuel - 1, store, kw, inst) == Some(true);
    assert TypeKw(kw, inst) == Some(true) && AdditionalKw(kw, inst) == Some(true);
    var v := RefKw(fuel - 1, store, kw, inst);
    assert v == Eval(fuel - 1, store, store[id], inst);
    AndTrue(v);
    assert Keywords(fuel - 1, store, kw, inst) == v;
  }

  /** `oneOf [ {$ref: id}, {} ]` holds exactly where the referenced schema
      fails: the empty schema always holds, so the reference must not. */
  lemma OneOfRefOrEmpty(fuel: nat, store: map<string, Json>, id: string, inst: Json)
    requires fuel >= 2 && id in store
    ensures var entry := Obj(map["oneOf" := Arr([Obj(map["$ref" := Str(id)]), Obj(map[])])]);
            Eval(fuel, store, entry, inst) == Not(Eval(fuel - 2, store, store[id], inst))
  {
    var alts := [Obj(map["$ref" := Str(id)]), Obj(map[])];
    var v := Eval(fuel - 2, store, store[id], inst);
    RefOnly(fuel - 1, store, id, inst);
    EmptyAcceptsAll(fuel - 1, store, inst);
    HoldingBeside(fuel - 1, store, alts[0], alts[1], inst);
    OneOfOnly(fuel, store, alts, inst);
  }

  /** How many of two alternatives hold when the second one does. */
  lemma HoldingBeside(fuel: nat, store: map<string, Json>, a: Json, b: Json, inst: Json)
    requires Eval(fuel, store, b, inst) == Some(true)
    ensures Holding(fuel, store, [a, b], inst)
            == match Eval(fuel, store, a, inst) case Some(x) => Some(if x then 2 else 1) case None => None
  {
    assert [a, b][1..] == [b] && [b][1..] == [];
    assert Holding(fuel, store, [], inst) == Some(0);
    assert Holding(fuel, store, [b], inst) == Some(1);
  }

  /** A schema holding only `oneOf` is that keyword. */
  lemma OneOfOnly(fuel: nat, store: map<string, Json>, alts: seq<Json>, inst: Json)
    requires fuel >= 1
    ensures Eval(fuel, store, Obj(map["oneOf" := Arr(alts)]), inst)
            == match Holding(fuel - 1, store, alts, inst) case Some(n) => Some(n == 1) case None => None
  {
    var kw := map["oneOf" := Arr(alts)];
    assert kw.Keys <= Annotations + Applicators;
    assert PropertiesKw(fuel - 1, store, kw, inst) == Some(true);
    assert ItemsKw(fuel - 1, store, kw, inst) == Some(true);
    assert AnyOfKw(fuel - 1, store, kw, inst) == Some(true);
    assert RefKw(fuel - 1, store, kw, inst) == Some(true);
    assert TypeKw(kw, inst) == Some(true) && AdditionalKw(kw, inst) == Some(true);
    var v := OneOfKw(fuel - 1, store, kw, inst);
    AndTrue(v);
    assert Keywords(fuel - 1, store, kw, inst) == v;
  }
}
