/** The JSON Schema (draft 2020-12) documents generated for validating and
    auto-completing workflow files: one per tool or workflow, one for the
    recursive `wic:` metadata tag, and the root schema, all registered in an
    id-keyed store. */
module Schemas {
  import opened Wrappers
  import opened JsonValues
  import opened Text
  import opened WicTypes

  /** A schema is a JSON object. */
  type Schema = Fields

  /** Hand-written schemas for the `config` input of some tools, by tool name. */
  type ConfigSchemas = map<string, Schema>

  const DraftUrl: string := "https://json-schema.org/draft/2020-12/schema"

  /** The skeleton every generated schema starts from: a closed object,
      optionally naming the draft it follows. */
  function DefaultSchema(url: bool): (r: Schema)
    ensures "type" in r && r["type"] == Str("object")
    ensures "additionalProperties" in r && r["additionalProperties"] == Bool(false)
    ensures "$schema" in r <==> url
    ensures url ==> r["$schema"] == Str(DraftUrl)
    ensures r.Keys <= {"type", "additionalProperties", "$schema"}
  {
    var base := map["type" := Str("object"), "additionalProperties" := Bool(false)];
    if url then base["$schema" := Str(DraftUrl)] else base
  }

  /** A closed object schema with the given members and nothing else. */
  function ClosedObject(props: Fields): (r: Json)
    ensures r.Obj? && r.fields.Keys == {"type", "additionalProperties", "properties"}
    ensures r.fields["type"] == Str("object") && r.fields["additionalProperties"] == Bool(false)
    ensures r.fields["properties"] == Obj(props)
  {
    Obj(DefaultSchema(false)["properties" := Obj(props)])
  }

  /** A draft-naming closed object with the given id, title, description
      and members. */
  function Documented(id: string, title: Json, description: Json, props: Fields): (r: Schema)
    ensures r.Keys == {"$schema", "type", "additionalProperties", "$id", "title", "description", "properties"}
    ensures r["$id"] == Str(id) && r["$schema"] == Str(DraftUrl)
    ensures r["type"] == Str("object") && r["additionalProperties"] == Bool(false)
    ensures r["title"] == title && r["description"] == description
    ensures r["properties"] == Obj(props)
  {
    DefaultSchema(true)["$id" := Str(id)]["title" := title]["description" := description]["properties" := Obj(props)]
  }

  // ---------------------------------------------------------------------
  // Per-tool schemas

  /** Why a document cannot be turned into a schema (a `KeyError` or an
      `AttributeError` in the generator). */
  datatype SchemaError =
    | MissingInputs       // no `inputs` member
    | InputsNotMapping    // `inputs` is not an object (e.g. CWL's list form)
    | InputNotMapping     // some input is not an object (e.g. `x: string`)

  /** The documents the generator accepts: `inputs` maps each input name to
      an object. */
  predicate InputsWellFormed(cwl: Fields)
  {
    && "inputs" in cwl
    && cwl["inputs"].Obj?
    && forall k :: k in cwl["inputs"].fields ==> cwl["inputs"].fields[k].Obj?
  }

  /** An input's declared type with CWL's optional marker `?` removed;
      a non-string type (an array or record type) is kept as it is. */
  function DeclaredType(input: Fields): (r: Json)
    ensures r.Str? ==> '?' !in r.s
    ensures "type" !in input ==> r == Str("")
    ensures "type" in input && !input["type"].Str? ==> r == input["type"]
    ensures "type" in input && input["type"].Str? ==>
              r.Str? && forall c :: c != '?' ==> multiset(r.s)[c] == multiset(input["type"].s)[c]
  {
    match GetOr(input, "type", Str(""))
    case Str(t) => Str(RemoveAll(t, '?'))
    case other => other
  }

  /** When an input's schema is given a JSON type: the type is known and not
      `File` (JSON has no file type), the input is not `config`, and the tool
      has a config schema. */
  predicate TypeGate(name: string, key: string, t: Json, cs: ConfigSchemas)
  {
    t != Str("") && t != Str("File") && key != "config" && name in cs
  }

  /** The schema documenting one input `key` of tool `name`. */
  function InputProperty(name: string, key: string, input: Fields, cs: ConfigSchemas): (r: Schema)
    ensures "title" in r && r["title"] == GetOr(input, "label", Str(""))
    ensures "description" in r && r["description"] == GetOr(input, "doc", Str(""))
    ensures key != "config" ==> r.Keys <= {"title", "description", "type"}
    ensures key != "config" ==> ("type" in r <==> TypeGate(name, key, DeclaredType(input), cs))
    ensures "type" in r && key != "config" ==>
              r["type"] == DeclaredType(input) && r["type"] != Str("") && r["type"] != Str("File")
    ensures key == "config" ==>
              var base := if name in cs then cs[name] else map[];
              && r.Keys == base.Keys + {"title", "description"}
              && forall f :: f in base && f != "title" && f != "description" ==> r[f] == base[f]
  {
    var base := if key == "config" then (if name in cs then cs[name] else map[]) else map[];
    var titled := base["title" := GetOr(input, "label", Str(""))]
                      ["description" := GetOr(input, "doc", Str(""))];
    var t := DeclaredType(input);
    if TypeGate(name, key, t, cs) then titled["type" := t] else titled
  }

  /** The member of a tool's schema under which its inputs are documented. */
  function InProperties(schema: Schema, step: string): Option<Json>
  {
    Lookup(Obj(schema), ["properties", step, "properties", "in", "properties"])
  }

  /** The name a workflow file uses for the step: a workflow is written
      with its `.yml` extension, a tool by its bare name. */
  function StepKey(name: string, idPrefix: string): string
  {
    if idPrefix == "workflows" then name + ".yml" else name
  }

  /** `cwl_schema`: the schema of tool or workflow `name`, identified as
      `idPrefix/name.json`, with a single property (the step as written in a
      workflow file) under which every input of `cwl` is documented.
      Documents whose inputs are not objects are rejected. */
  function CwlSchema(name: string, cwl: Fields, idPrefix: string, cs: ConfigSchemas)
    : (r: Result<Schema, SchemaError>)
    ensures r.Success? <==> InputsWellFormed(cwl)
    ensures "inputs" !in cwl ==> r == Failure(MissingInputs)
    ensures "inputs" in cwl && !cwl["inputs"].Obj? ==> r == Failure(InputsNotMapping)
    ensures r.Success? ==> "$id" in r.value && r.value["$id"] == Str(idPrefix + "/" + name + ".json")
  {
    if "inputs" !in cwl then Failure(MissingInputs)
    else match cwl["inputs"]
      case Obj(inputs) =>
        if exists k :: k in inputs && !inputs[k].Obj? then Failure(InputNotMapping)
        else Success(SchemaOf(name, cwl, idPrefix, InputsProperties(name, inputs, cs)))
      case _ => Failure(InputsNotMapping)
  }

  /** The documentation of every input. */
  function InputsProperties(name: string, inputs: Fields, cs: ConfigSchemas): (r: Fields)
    requires forall k :: k in inputs ==> inputs[k].Obj?
    ensures r.Keys == inputs.Keys
  {
    map k | k in inputs :: Obj(InputProperty(name, k, inputs[k].fields, cs))
  }

  /** The schema of a tool or workflow whose inputs are documented by `props`. */
  function SchemaOf(name: string, cwl: Fields, idPrefix: string, props: Fields): (r: Schema)
    ensures r.Keys == {"$schema", "type", "additionalProperties", "$id", "title", "description", "properties"}
    ensures r["$id"] == Str(idPrefix + "/" + name + ".json") && r["$schema"] == Str(DraftUrl)
    ensures r["type"] == Str("object") && r["additionalProperties"] == Bool(false)
    ensures r["title"] == GetOr(cwl, "label", Str("")) && r["description"] == GetOr(cwl, "doc", Str(""))
    ensures r["properties"] == Obj(map[StepKey(name, idPrefix) := StepSchema(props)])
  {
    Documented(idPrefix + "/" + name + ".json", GetOr(cwl, "label", Str("")), GetOr(cwl, "doc", Str("")),
               map[StepKey(name, idPrefix) := StepSchema(props)])
  }

  /** The schema of a step: closed, with the single member `in`, itself a
      closed object documenting the inputs. */
  function StepSchema(props: Fields): Json
  {
    ClosedObject(map["in" := ClosedObject(props)])
  }

  /** The inputs documented by a generated schema are exactly the inputs of
      the document, each described by `InputProperty`. */
  lemma CwlSchemaInputs(name: string, cwl: Fields, idPrefix: string, cs: ConfigSchemas)
    requires InputsWellFormed(cwl)
    ensures var ps := InProperties(CwlSchema(name, cwl, idPrefix, cs).value, StepKey(name, idPrefix));
            && ps.Some? && ps.value.Obj?
            && ps.value.fields.Keys == cwl["inputs"].fields.Keys
            && forall k :: k in ps.value.fields ==>
                 ps.value.fields[k] == Obj(InputProperty(name, k, cwl["inputs"].fields[k].fields, cs))
  {
    var inputs := cwl["inputs"].fields;
    var schema := CwlSchema(name, cwl, idPrefix, cs).value;
    assert schema == SchemaOf(name, cwl, idPrefix, InputsProperties(name, inputs, cs));
    InPropertiesAt(schema, StepKey(name, idPrefix), InputsProperties(name, inputs, cs));
  }

  /** Following the path `properties / step / properties / in / properties`. */
  lemma InPropertiesAt(schema: Schema, step: string, props: Fields)
    requires "properties" in schema && schema["properties"] == Obj(map[step := StepSchema(props)])
    ensures InProperties(schema, step) == Some(Obj(props))
  {
    var st := StepSchema(props);
    var inner := ClosedObject(props);
    LookupCons(Obj(schema), "properties", [step, "properties", "in", "properties"]);
    LookupCons(Obj(map[step := st]), step, ["properties", "in", "properties"]);
    LookupCons(st, "properties", ["in", "properties"]);
    LookupCons(Obj(map["in" := inner]), "in", ["properties"]);
    LookupCons(inner, "properties", []);
  }

  /** A generated schema is a closed object naming the draft, titled and
      described by the document's `label` and `doc`, with a single member:
      the step as a workflow file writes it. It has no keyword beyond
      these; in particular no `required`. */
  lemma CwlSchemaShape(name: string, cwl: Fields, idPrefix: string, cs: ConfigSchemas)
    requires InputsWellFormed(cwl)
    ensures var v := CwlSchema(name, cwl, idPrefix, cs).value;
            && v.Keys == {"$schema", "type", "additionalProperties", "$id", "title", "description", "properties"}
            && v["$schema"] == Str(DraftUrl)
            && v["type"] == Str("object") && v["additionalProperties"] == Bool(false)
            && v["title"] == GetOr(cwl, "label", Str("")) && v["description"] == GetOr(cwl, "doc", Str(""))
            && v["properties"].Obj?
            && v["properties"].fields.Keys == {if idPrefix == "workflows" then name + ".yml" else name}
  {
    var inputs := cwl["inputs"].fields;
    assert CwlSchema(name, cwl, idPrefix, cs).value == SchemaOf(name, cwl, idPrefix, InputsProperties(name, inputs, cs));
  }

  /** The schema of the step member: a closed object whose only member is
      `in`; nothing is required, so `{}` is a valid step body. */
  lemma StepSchemaShape(name: string, cwl: Fields, idPrefix: string, cs: ConfigSchemas)
    requires InputsWellFormed(cwl)
    ensures var v := CwlSchema(name, cwl, idPrefix, cs).value;
            && "properties" in v && v["properties"].Obj? && StepKey(name, idPrefix) in v["properties"].fields
            && var st := v["properties"].fields[StepKey(name, idPrefix)];
            && st.Obj? && st.fields.Keys == {"type", "additionalProperties", "properties"}
            && st.fields["type"] == Str("object") && st.fields["additionalProperties"] == Bool(false)
            && st.fields["properties"].Obj? && st.fields["properties"].fields.Keys == {"in"}
  {
    var inputs := cwl["inputs"].fields;
    assert CwlSchema(name, cwl, idPrefix, cs).value == SchemaOf(name, cwl, idPrefix, InputsProperties(name, inputs, cs));
  }

  // ---------------------------------------------------------------------
  // The recursive `wic:` tag schema

  const StepKeyPattern: string := "\\([0-9]+, [A-Za-z0-9_\\.]+\\)"

  function TypeOnly(t: string): Json
  {
    Obj(map["type" := Str(t)])
  }

  /** A step's entry under `steps`: its `wic` member recurses to the tag. */
  function StepChoices(): (r: Json)
    ensures Lookup(r, ["properties", "wic"]) == Some(Obj(map["$dynamicRef" := Str("#wic")]))
  {
    var recursiveRef := Obj(map["$dynamicRef" := Str("#wic")]);
    var props := map["in" := Obj(map[]), "wic" := recursiveRef,
                     "scatter" := Obj(map[]), "scatterMethod" := Obj(map[])];
    var r := ClosedObject(props);
    LookupCons(r, "properties", ["wic"]);
    LookupCons(Obj(props), "wic", []);
    r
  }

  /** `steps` matches every key of the form `(i, name)`. */
  function StepsSchema(): (r: Json)
    ensures var pp := Lookup(r, ["patternProperties"]);
            && pp.Some? && pp.value.Obj? && pp.value.fields.Keys == {StepKeyPattern}
            && pp.value.fields[StepKeyPattern] == StepChoices()
  {
    var r := Obj(DefaultSchema(false)["patternProperties" := Obj(map[StepKeyPattern := StepChoices()])]);
    LookupCons(r, "patternProperties", []);
    r
  }

  function GraphvizSchema(): Json
  {
    var ranksame := Obj(map["type" := Str("array"), "items" := TypeOnly("string")]);
    ClosedObject(map["label" := TypeOnly("string"), "style" := TypeOnly("string"),
                     "ranksame" := ranksame])
  }

  function EnvironmentSchema(): Json
  {
    var saveDefs := Obj(map["type" := Str("array"), "items" := TypeOnly("string")]);
    ClosedObject(map["action" := TypeOnly("string"), "save_defs" := saveDefs])
  }

  function TagProperties(): (r: Fields)
    ensures r.Keys == {"graphviz", "steps", "backend", "backends", "default_backend", "namespace",
                       "inlineable", "environment"}
    ensures "steps" in r && r["steps"] == StepsSchema()
    ensures "inlineable" in r && r["inlineable"] == TypeOnly("boolean")
  {
    map["graphviz" := GraphvizSchema(), "steps" := StepsSchema(),
        "backend" := TypeOnly("string"),
        "backends" := Obj(map["type" := Str("object"), "additionalProperties" := Bool(true)]),
        "default_backend" := TypeOnly("string"),
        "namespace" := TypeOnly("string"),
        "inlineable" := TypeOnly("boolean"),
        "environment" := EnvironmentSchema()]
  }

  const TagTitle: string := "Metadata annotations"
  const TagDescription: string :=
    "Use steps: to recursively overload / pass parameters.\nUse graphviz: to modify the DAGs."

  /** `wic_tag_schema`: the schema of the `wic:` metadata tag, a closed
      object declaring the dynamic anchor `wic` its recursion resolves to. */
  function WicTagSchema(): (r: Schema)
    ensures r.Keys == {"$schema", "type", "additionalProperties", "$id", "title", "description",
                       "properties", "$dynamicAnchor"}
    ensures r["$id"] == Str("wic_tag") && r["$dynamicAnchor"] == Str("wic") && r["$schema"] == Str(DraftUrl)
    ensures r["type"] == Str("object") && r["additionalProperties"] == Bool(false)
    ensures r["title"] == Str(TagTitle) && r["description"] == Str(TagDescription)
    ensures "properties" in r && r["properties"] == Obj(TagProperties())
  {
    AnchoredTag(TagProperties())
  }

  /** The tag's frame around its members `props`. */
  function AnchoredTag(props: Fields): (r: Schema)
    ensures r.Keys == {"$schema", "type", "additionalProperties", "$id", "title", "description",
                       "properties", "$dynamicAnchor"}
    ensures r["$id"] == Str("wic_tag") && r["$dynamicAnchor"] == Str("wic") && r["$schema"] == Str(DraftUrl)
    ensures r["type"] == Str("object") && r["additionalProperties"] == Bool(false)
    ensures r["title"] == Str(TagTitle) && r["description"] == Str(TagDescription)
    ensures "properties" in r && r["properties"] == Obj(props)
  {
    Documented("wic_tag", Str(TagTitle), Str(TagDescription), props)["$dynamicAnchor" := Str("wic")]
  }

  /** The tag is recursive: `steps` has a single pattern, `(i, name)`, whose
      `wic` member is a `$dynamicRef` to the anchor the tag itself declares,
      so a step's `wic:` is again a full tag, to any depth. `inlineable` is
      a boolean. */
  lemma WicTagRecursive()
    ensures var r := WicTagSchema();
            && Lookup(Obj(r), ["properties", "inlineable", "type"]) == Some(Str("boolean"))
            && var pp := Lookup(Obj(r), ["properties", "steps", "patternProperties"]);
               && pp.Some? && pp.value.Obj? && |pp.value.fields| == 1
               && forall p :: p in pp.value.fields ==>
                    Lookup(pp.value.fields[p], ["properties", "wic"])
                      == Some(Obj(map["$dynamicRef" := Str("#" + r["$dynamicAnchor"].s)]))
  {
    TagShape(WicTagSchema(), TagProperties());
  }

  /** The path reasoning behind `WicTagRecursive`, for any schema whose
      properties are those of the tag. */
  lemma TagShape(r: Schema, props: Fields)
    requires "properties" in r && r["properties"] == Obj(props)
    requires "$dynamicAnchor" in r && r["$dynamicAnchor"] == Str("wic")
    requires "inlineable" in props && props["inlineable"] == TypeOnly("boolean")
    requires "steps" in props && props["steps"] == StepsSchema()
    ensures Lookup(Obj(r), ["properties", "inlineable", "type"]) == Some(Str("boolean"))
    ensures var pp := Lookup(Obj(r), ["properties", "steps", "patternProperties"]);
            && pp.Some? && pp.value.Obj? && |pp.value.fields| == 1
            && forall p :: p in pp.value.fields ==>
                 Lookup(pp.value.fields[p], ["properties", "wic"])
                   == Some(Obj(map["$dynamicRef" := Str("#" + r["$dynamicAnchor"].s)]))
  {
    LookupCons(Obj(r), "properties", ["inlineable", "type"]);
    LookupCons(Obj(props), "inlineable", ["type"]);
    LookupCons(TypeOnly("boolean"), "type", []);
    LookupCons(Obj(r), "properties", ["steps", "patternProperties"]);
    LookupCons(Obj(props), "steps", ["patternProperties"]);
    assert "#" + "wic" == "#wic";
  }

  // ---------------------------------------------------------------------
  // The root schema

  const StepsDescription: string := "A list of workflow steps"
  const ItemsTitle: string := "Valid workflow steps"
  const MainTitle: string := "Validating against the Workflow Interence Compiler schema"

  /** The id a tool's schema is registered under; the stem can be read
      back from between the `tools/` prefix and the `.json` suffix. */
  function ToolRef(stem: string): (r: string)
    ensures |r| == |stem| + 11 && r[..6] == "tools/" && r[|r| - 5..] == ".json"
    ensures r[6..|r| - 5] == stem
  {
    "tools/" + stem + ".json"
  }

  /** The id a workflow's schema is registered under, read back likewise. */
  function WorkflowRef(stem: string): (r: string)
    ensures |r| == |stem| + 15 && r[..10] == "workflows/" && r[|r| - 5..] == ".json"
    ensures r[10..|r| - 5] == stem
  {
    "workflows/" + stem + ".json"
  }

  /** Distinct stems give distinct ids. */
  lemma ToolRefInjective(a: string, b: string)
    requires ToolRef(a) == ToolRef(b)
    ensures a == b
  {
  }

  /** The reference of an alternative shaped `oneOf [ {$ref: r}, {} ]`,
      and `None` for any other JSON value. */
  function EntryRef(e: Json): (r: Option<string>)
  {
    if && e.Obj? && e.fields.Keys == {"oneOf"}
       && e.fields["oneOf"].Arr? && |e.fields["oneOf"].items| == 2
       && e.fields["oneOf"].items[1] == Obj(map[])
       && e.fields["oneOf"].items[0].Obj?
       && e.fields["oneOf"].items[0].fields.Keys == {"$ref"}
       && e.fields["oneOf"].items[0].fields["$ref"].Str?
    then Some(e.fields["oneOf"].items[0].fields["$ref"].s)
    else None
  }

  /** One alternative for a workflow step: `oneOf [ {$ref: ref}, {} ]`,
      which decodes back to `ref`. */
  function StepEntry(ref: string): (r: Json)
    ensures EntryRef(r) == Some(ref)
  {
    var target := map["$ref" := Str(ref)];
    assert target.Keys == {"$ref"};
    var r := Obj(map["oneOf" := Arr([Obj(target), Obj(map[])])]);
    assert r.fields.Keys == {"oneOf"};
    r
  }

  /** `EntryRef` decodes exactly the alternatives `StepEntry` builds. */
  lemma EntryRefInverse(e: Json, ref: string)
    ensures EntryRef(e) == Some(ref) <==> e == StepEntry(ref)
  {
    if EntryRef(e) == Some(ref) {
      var alts := e.fields["oneOf"].items;
      assert alts[0].fields == map["$ref" := Str(ref)];
      assert alts == [Obj(map["$ref" := Str(ref)]), Obj(map[])];
      assert e.fields == map["oneOf" := Arr(alts)];
    }
  }

  /** The alternatives a step of a workflow file is validated against. */
  function StepItems(main: Schema): seq<Json>
  {
    match Lookup(Obj(main), ["properties", "steps", "items", "anyOf"])
    case Some(Arr(alts)) => alts
    case _ => []
  }

  /** One alternative per catalog tool, in catalog order, each referring
      to that tool's id. */
  function ToolEntries(keys: seq<StepId>): (r: seq<Json>)
    ensures |r| == |keys| && forall i :: 0 <= i < |keys| ==> EntryRef(r[i]) == Some(ToolRef(keys[i].stem))
  {
    seq(|keys|, i requires 0 <= i < |keys| => StepEntry(ToolRef(keys[i].stem)))
  }

  /** One alternative per workflow stem, in the order given, each referring
      to that workflow's id. */
  function WorkflowEntries(ymlStems: seq<string>): (r: seq<Json>)
    ensures |r| == |ymlStems| && forall j :: 0 <= j < |ymlStems| ==> EntryRef(r[j]) == Some(WorkflowRef(ymlStems[j]))
  {
    seq(|ymlStems|, j requires 0 <= j < |ymlStems| => StepEntry(WorkflowRef(ymlStems[j])))
  }

  /** Tool alternatives first, in catalog order, then workflow ones. */
  function StepAlternatives(tools: Tools, ymlStems: seq<string>): (r: seq<Json>)
    ensures |r| == |tools.keys| + |ymlStems|
    ensures forall i :: 0 <= i < |tools.keys| ==> EntryRef(r[i]) == Some(ToolRef(tools.keys[i].stem))
    ensures forall j :: 0 <= j < |ymlStems| ==> EntryRef(r[|tools.keys| + j]) == Some(WorkflowRef(ymlStems[j]))
  {
    var ts := ToolEntries(tools.keys);
    var ws := WorkflowEntries(ymlStems);
    assert forall j :: 0 <= j < |ws| ==> (ts + ws)[|ts| + j] == ws[j];
    ts + ws
  }

  /** The schema every step must satisfy: one of the alternatives. */
  function ItemsSchema(tools: Tools, ymlStems: seq<string>): Fields
  {
    map["anyOf" := Arr(StepAlternatives(tools, ymlStems)), "title" := Str(ItemsTitle)]
  }

  /** An array schema with the given description and item schema. */
  function ArrayOf(description: string, items: Fields): (r: Fields)
    ensures r.Keys == {"type", "description", "items"}
    ensures r["type"] == Str("array") && r["description"] == Str(description)
    ensures r["items"] == Obj(items)
  {
    map["type" := Str("array"), "description" := Str(description), "items" := Obj(items)]
  }

  function StepsSchemaOf(tools: Tools, ymlStems: seq<string>): (r: Fields)
    ensures "items" in r && r["items"] == Obj(ItemsSchema(tools, ymlStems))
    ensures Lookup(Obj(r), ["items", "anyOf"]) == Some(Arr(StepAlternatives(tools, ymlStems)))
  {
    var items := ItemsSchema(tools, ymlStems);
    var r := ArrayOf(StepsDescription, items);
    LookupCons(Obj(r), "items", ["anyOf"]);
    LookupCons(Obj(items), "anyOf", []);
    r
  }

  /** The members of the root schema: the tag, the steps, and open
      `inputs` and `outputs`. */
  function MainProperties(tag: Schema, steps: Fields): (r: Fields)
    ensures "wic" in r && r["wic"] == Obj(tag)
    ensures "steps" in r && r["steps"] == Obj(steps)
  {
    var open := Obj(map["type" := Str("object"), "additionalProperties" := Bool(true)]);
    map["wic" := Obj(tag), "steps" := Obj(steps), "inputs" := open, "outputs" := open]
  }

  /** A workflow file may carry exactly these top-level members. */
  lemma MainPropertiesKeys(tag: Schema, steps: Fields)
    ensures MainProperties(tag, steps).Keys == {"wic", "steps", "inputs", "outputs"}
  {
  }

  /** A draft-naming closed object with the given id, title and members. */
  function Rooted(id: string, title: string, props: Fields): (r: Schema)
    ensures r.Keys == {"$schema", "type", "additionalProperties", "$id", "title", "properties"}
    ensures r["$id"] == Str(id) && r["$schema"] == Str(DraftUrl) && r["title"] == Str(title)
    ensures r["type"] == Str("object") && r["additionalProperties"] == Bool(false)
    ensures r["properties"] == Obj(props)
  {
    DefaultSchema(true)["$id" := Str(id)]["title" := Str(title)]["properties" := Obj(props)]
  }

  /** `wic_main_schema`: the root schema workflow files are validated
      against. The store and the `use_yml_schema` flag are accepted but not
      consulted. */
  function WicMainSchema(tools: Tools, ymlStems: seq<string>, store: map<string, Json>, useYml: bool)
    : (r: Schema)
    ensures r.Keys == {"$schema", "type", "additionalProperties", "$id", "title", "properties"}
    ensures r["$id"] == Str("wic_main") && r["$schema"] == Str(DraftUrl) && r["title"] == Str(MainTitle)
    ensures r["type"] == Str("object") && r["additionalProperties"] == Bool(false)
    ensures "properties" in r && r["properties"] == Obj(MainProperties(WicTagSchema(), StepsSchemaOf(tools, ymlStems)))
  {
    Rooted("wic_main", MainTitle, MainProperties(WicTagSchema(), StepsSchemaOf(tools, ymlStems)))
  }

  /** A path under `properties.steps` of a schema, read in its `steps` member. */
  lemma InStepsAt(main: Schema, props: Fields, steps: Fields, rest: seq<string>)
    requires "properties" in main && main["properties"] == Obj(props)
    requires "steps" in props && props["steps"] == Obj(steps)
    ensures Lookup(Obj(main), ["properties", "steps"] + rest) == Lookup(Obj(steps), rest)
  {
    LookupCons(Obj(main), "properties", ["steps"] + rest);
    assert (["properties", "steps"] + rest)[1..] == ["steps"] + rest;
    LookupCons(Obj(props), "steps", rest);
    assert (["properties", "steps"] + rest)[0] == "properties";
  }

  /** The schema each step of a workflow file is checked against. */
  lemma MainItems(tools: Tools, ymlStems: seq<string>, store: map<string, Json>, useYml: bool)
    ensures Lookup(Obj(WicMainSchema(tools, ymlStems, store, useYml)), ["properties", "steps", "items"])
            == Some(Obj(ItemsSchema(tools, ymlStems)))
  {
    ItemsAt(WicMainSchema(tools, ymlStems, store, useYml), MainProperties(WicTagSchema(), StepsSchemaOf(tools, ymlStems)),
            StepsSchemaOf(tools, ymlStems), ItemsSchema(tools, ymlStems));
  }

  lemma ItemsAt(main: Schema, props: Fields, steps: Fields, items: Fields)
    requires "properties" in main && main["properties"] == Obj(props)
    requires "steps" in props && props["steps"] == Obj(steps)
    requires "items" in steps && steps["items"] == Obj(items)
    ensures Lookup(Obj(main), ["properties", "steps", "items"]) == Some(Obj(items))
  {
    InStepsAt(main, props, steps, ["items"]);
    assert ["properties", "steps"] + ["items"] == ["properties", "steps", "items"];
    LookupCons(Obj(steps), "items", []);
  }

  /** The step alternatives are the ones the root schema holds. */
  lemma StepItemsOfMain(tools: Tools, ymlStems: seq<string>, store: map<string, Json>, useYml: bool)
    ensures StepItems(WicMainSchema(tools, ymlStems, store, useYml)) == StepAlternatives(tools, ymlStems)
  {
    StepItemsAt(WicMainSchema(tools, ymlStems, store, useYml), MainProperties(WicTagSchema(), StepsSchemaOf(tools, ymlStems)),
                StepsSchemaOf(tools, ymlStems), StepAlternatives(tools, ymlStems));
  }

  lemma StepItemsAt(main: Schema, props: Fields, steps: Fields, alts: seq<Json>)
    requires "properties" in main && main["properties"] == Obj(props)
    requires "steps" in props && props["steps"] == Obj(steps)
    requires Lookup(Obj(steps), ["items", "anyOf"]) == Some(Arr(alts))
    ensures StepItems(main) == alts
  {
    InStepsAt(main, props, steps, ["items", "anyOf"]);
    assert ["properties", "steps"] + ["items", "anyOf"] == ["properties", "steps", "items", "anyOf"];
  }

  /** The step alternatives of the root schema: one per catalog tool, in
      catalog order, then one per workflow stem, in the order given; each
      is `oneOf` a reference and the empty schema (see `EntryRef`). */
  lemma MainSchemaSteps(tools: Tools, ymlStems: seq<string>, store: map<string, Json>, useYml: bool)
    ensures var items := StepItems(WicMainSchema(tools, ymlStems, store, useYml));
            && |items| == |tools.keys| + |ymlStems|
            && (forall i :: 0 <= i < |tools.keys| ==>
                  EntryRef(items[i]) == Some(ToolRef(tools.keys[i].stem)))
            && (forall j :: 0 <= j < |ymlStems| ==>
                  EntryRef(items[|tools.keys| + j]) == Some(WorkflowRef(ymlStems[j])))
  {
    StepItemsOfMain(tools, ymlStems, store, useYml);
  }

  /** The root schema does not depend on the store or on `use_yml_schema`. */
  lemma MainSchemaIgnoresStore(tools: Tools, ymlStems: seq<string>,
                               s1: map<string, Json>, b1: bool, s2: map<string, Json>, b2: bool)
    ensures WicMainSchema(tools, ymlStems, s1, b1) == WicMainSchema(tools, ymlStems, s2, b2)
  {
  }

  /** The references of the root schema are the ids the per-tool schemas
      carry: tool `i`'s alternative names exactly the `$id` of
      `CwlSchema(stem, cwl, "tools")`. */
  lemma ToolRefMatchesId(tools: Tools, ymlStems: seq<string>, store: map<string, Json>, useYml: bool,
                         cs: ConfigSchemas, i: int)
    requires 0 <= i < |tools.keys| && InputsWellFormed(tools.vals[tools.keys[i]].cwl)
    ensures var items := StepItems(WicMainSchema(tools, ymlStems, store, useYml));
            var k := tools.keys[i];
            && i < |items| && CwlSchema(k.stem, tools.vals[k].cwl, "tools", cs).Success?
            && EntryRef(items[i]) == Some(CwlSchema(k.stem, tools.vals[k].cwl, "tools", cs).value["$id"].s)
  {
    MainSchemaSteps(tools, ymlStems, store, useYml);
    ToolIdIs(tools.keys[i].stem, tools.vals[tools.keys[i]].cwl, cs);
  }

  /** Likewise for workflows: workflow `j`'s alternative names the `$id`
      of `CwlSchema(stem, cwl, "workflows")` for whatever compiled
      document `cwl`. */
  lemma WorkflowRefMatchesId(tools: Tools, ymlStems: seq<string>, store: map<string, Json>, useYml: bool,
                             cs: ConfigSchemas, j: int, cwl: Fields)
    requires 0 <= j < |ymlStems| && InputsWellFormed(cwl)
    ensures var items := StepItems(WicMainSchema(tools, ymlStems, store, useYml));
            && |tools.keys| + j < |items| && CwlSchema(ymlStems[j], cwl, "workflows", cs).Success?
            && EntryRef(items[|tools.keys| + j]) == Some(CwlSchema(ymlStems[j], cwl, "workflows", cs).value["$id"].s)
  {
    MainSchemaSteps(tools, ymlStems, store, useYml);
    WorkflowIdIs(ymlStems[j], cwl, cs);
  }

  lemma ToolIdIs(stem: string, cwl: Fields, cs: ConfigSchemas)
    requires InputsWellFormed(cwl)
    ensures CwlSchema(stem, cwl, "tools", cs).Success?
    ensures CwlSchema(stem, cwl, "tools", cs).value["$id"] == Str(ToolRef(stem))
  {
    assert "tools" + "/" == "tools/";
  }

  lemma WorkflowIdIs(stem: string, cwl: Fields, cs: ConfigSchemas)
    requires InputsWellFormed(cwl)
    ensures CwlSchema(stem, cwl, "workflows", cs).Success?
    ensures CwlSchema(stem, cwl, "workflows", cs).value["$id"] == Str(WorkflowRef(stem))
  {
    assert "workflows" + "/" == "workflows/";
  }

  // ---------------------------------------------------------------------
  // Registration

  /** The ids the catalog's tool schemas are registered under. */
  function ToolIds(keys: seq<StepId>): set<string>
  {
    if keys == [] then {}
    else ToolIds(keys[..|keys| - 1]) + {ToolRef(keys[|keys| - 1].stem)}
  }

  /** The ids are those of the listed stems. */
  lemma {:induction false} ToolIdsMembers(keys: seq<StepId>, id: string)
    ensures id in ToolIds(keys) <==> exists k :: k in keys && id == ToolRef(k.stem)
  {
    if keys != [] {
      var init := keys[..|keys| - 1];
      ToolIdsMembers(init, id);
      assert keys == init + [keys[|keys| - 1]];
      if id in ToolIds(init) {
        var k :| k in init && id == ToolRef(k.stem);
        assert k in keys;
      }
    }
  }

  /** No later catalog entry shares the stem of entry `i`. */
  predicate LastOfStem(keys: seq<StepId>, i: int, upto: int)
    requires 0 <= i < upto <= |keys|
  {
    forall m :: i < m < upto ==> keys[m].stem != keys[i].stem
  }

  /** The schema of catalog entry `i` (defined when its inputs are). */
  function ToolSchema(tools: Tools, i: int, cs: ConfigSchemas): Result<Schema, SchemaError>
    requires 0 <= i < |tools.keys|
  {
    var k := tools.keys[i];
    CwlSchema(k.stem, tools.vals[k].cwl, "tools", cs)
  }

  /** What the loop of `get_validator` has achieved after `i` tools. */
  predicate RegisteredUpTo(tools: Tools, store: map<string, Json>, s: map<string, Json>, i: int,
                           cs: ConfigSchemas)
    requires 0 <= i <= |tools.keys|
  {
    && (forall j :: 0 <= j < i ==> InputsWellFormed(tools.vals[tools.keys[j]].cwl))
    && s.Keys == store.Keys + ToolIds(tools.keys[..i])
    && KeepsOthers(store, s, ToolIds(tools.keys[..i]))
    && LatestWins(tools, s, i, cs)
  }

  /** Entries of `store` whose ids are not in `ids` are unchanged in `s`. */
  predicate KeepsOthers(store: map<string, Json>, s: map<string, Json>, ids: set<string>)
  {
    forall key :: key in store && key !in ids ==> key in s && s[key] == store[key]
  }

  /** No later one of the first `upto` tools has the id of tool `i`. */
  predicate LastOfId(keys: seq<StepId>, i: int, upto: int)
    requires 0 <= i < upto <= |keys|
  {
    forall m :: i < m < upto ==> ToolRef(keys[m].stem) != ToolRef(keys[i].stem)
  }

  /** Ids and stems agree: being the last of a stem is being the last of an id. */
  lemma LastOfStemIsLastOfId(keys: seq<StepId>, i: int, upto: int)
    requires 0 <= i < upto <= |keys|
    ensures LastOfStem(keys, i, upto) <==> LastOfId(keys, i, upto)
  {
    forall m | i < m < upto && ToolRef(keys[m].stem) == ToolRef(keys[i].stem)
      ensures keys[m].stem == keys[i].stem
    {
      ToolRefInjective(keys[m].stem, keys[i].stem);
    }
  }

  /** The schemas of the catalog's tools, in catalog order. */
  function ToolSchemas(tools: Tools, cs: ConfigSchemas): seq<Result<Schema, SchemaError>>
  {
    seq(|tools.keys|, j requires 0 <= j < |tools.keys| => ToolSchema(tools, j, cs))
  }

  /** Among the first `i` ids of `keys`, the last occurrence of each has
      its schema from `schemas` stored in `s`. */
  predicate LatestIn(keys: seq<StepId>, schemas: seq<Result<Schema, SchemaError>>, s: map<string, Json>, i: int)
    requires 0 <= i <= |keys| == |schemas|
  {
    forall j :: 0 <= j < i && LastOfId(keys, j, i) ==>
      && schemas[j].Success?
      && ToolRef(keys[j].stem) in s
      && s[ToolRef(keys[j].stem)] == Obj(schemas[j].value)
  }

  /** Among the first `i` tools, the last with each id has its schema in `s`. */
  predicate LatestWins(tools: Tools, s: map<string, Json>, i: int, cs: ConfigSchemas)
    requires 0 <= i <= |tools.keys|
  {
    LatestIn(tools.keys, ToolSchemas(tools, cs), s, i)
  }

  lemma LatestInStep(keys: seq<StepId>, schemas: seq<Result<Schema, SchemaError>>, s: map<string, Json>, i: int)
    requires 0 <= i < |keys| == |schemas| && LatestIn(keys, schemas, s, i)
    requires schemas[i].Success?
    ensures LatestIn(keys, schemas, s[ToolRef(keys[i].stem) := Obj(schemas[i].value)], i + 1)
  {
    var s' := s[ToolRef(keys[i].stem) := Obj(schemas[i].value)];
    forall j | 0 <= j < i + 1 && LastOfId(keys, j, i + 1)
      ensures schemas[j].Success? && ToolRef(keys[j].stem) in s'
      ensures s'[ToolRef(keys[j].stem)] == Obj(schemas[j].value)
    {
      if j < i {
        assert LastOfId(keys, j, i);
        assert ToolRef(keys[i].stem) != ToolRef(keys[j].stem);
      }
    }
  }

  lemma LatestWinsStep(tools: Tools, s: map<string, Json>, i: int, cs: ConfigSchemas)
    requires 0 <= i < |tools.keys| && LatestWins(tools, s, i, cs)
    requires ToolSchema(tools, i, cs).Success?
    ensures LatestWins(tools, s[ToolRef(tools.keys[i].stem) := Obj(ToolSchema(tools, i, cs).value)], i + 1, cs)
  {
    LatestInStep(tools.keys, ToolSchemas(tools, cs), s, i);
  }

  lemma ToolIdsStep(keys: seq<StepId>, i: int)
    requires 0 <= i < |keys|
    ensures ToolIds(keys[..i + 1]) == ToolIds(keys[..i]) + {ToolRef(keys[i].stem)}
  {
    assert keys[..i + 1][..i] == keys[..i];
  }

  /** Registering tool `i` under its id extends the achievement to `i + 1`. */
  lemma RegisterStep(tools: Tools, store: map<string, Json>, s: map<string, Json>, i: int,
                     cs: ConfigSchemas)
    requires 0 <= i < |tools.keys| && RegisteredUpTo(tools, store, s, i, cs)
    requires ToolSchema(tools, i, cs).Success?
    ensures var k := tools.keys[i];
            RegisteredUpTo(tools, store, s[ToolRef(k.stem) := Obj(ToolSchema(tools, i, cs).value)], i + 1, cs)
  {
    var id := ToolRef(tools.keys[i].stem);
    var s' := s[id := Obj(ToolSchema(tools, i, cs).value)];
    ToolIdsStep(tools.keys, i);
    LatestWinsStep(tools, s, i, cs);
    assert KeepsOthers(store, s', ToolIds(tools.keys[..i + 1]));
  }

  /** A tool's schema exists when its inputs are well formed, and carries
      the tool's id. */
  lemma ToolSchemaId(tools: Tools, i: int, cs: ConfigSchemas)
    requires 0 <= i < |tools.keys|
    ensures ToolSchema(tools, i, cs).Success? <==> InputsWellFormed(tools.vals[tools.keys[i]].cwl)
    ensures ToolSchema(tools, i, cs).Success? ==>
              "$id" in ToolSchema(tools, i, cs).value
              && ToolSchema(tools, i, cs).value["$id"] == Str(ToolRef(tools.keys[i].stem))
  {
    assert "tools" + "/" == "tools/";
  }

  /** Once every tool is registered, the store has the final shape. */
  lemma RegisteredAll(tools: Tools, store: map<string, Json>, s: map<string, Json>, cs: ConfigSchemas)
    requires RegisteredUpTo(tools, store, s, |tools.keys|, cs)
    ensures forall k :: k in tools.keys ==> InputsWellFormed(tools.vals[k].cwl)
    ensures s.Keys == store.Keys + ToolIds(tools.keys)
    ensures KeepsOthers(store, s, ToolIds(tools.keys))
    ensures LatestWins(tools, s, |tools.keys|, cs)
  {
    assert tools.keys[..|tools.keys|] == tools.keys;
    forall k | k in tools.keys ensures InputsWellFormed(tools.vals[k].cwl) {
      var j :| 0 <= j < |tools.keys| && tools.keys[j] == k;
    }
  }

  /** Tool `i` is the first in catalog order whose schema cannot be built. */
  predicate FirstFailing(tools: Tools, cs: ConfigSchemas, i: int)
  {
    && 0 <= i < |tools.keys| && ToolSchema(tools, i, cs).Failure?
    && forall j :: 0 <= j < i ==> ToolSchema(tools, j, cs).Success?
  }

  /** The loop of `get_validator`: every tool's schema stored under its
      `$id`, in catalog order, aborting on a tool whose inputs cannot be
      documented. Of two tools sharing a stem the later one's schema wins. */
  method RegisterTools(tools: Tools, store: map<string, Json>, cs: ConfigSchemas)
    returns (r: Result<map<string, Json>, SchemaError>)
    ensures r.Success? <==> forall k :: k in tools.keys ==> InputsWellFormed(tools.vals[k].cwl)
    ensures r.Failure? ==> exists i :: FirstFailing(tools, cs, i) && ToolSchema(tools, i, cs) == Failure(r.error)
    ensures r.Success? ==> r.value.Keys == store.Keys + ToolIds(tools.keys)
    ensures r.Success? ==> KeepsOthers(store, r.value, ToolIds(tools.keys))
    ensures r.Success? ==> LatestWins(tools, r.value, |tools.keys|, cs)
  {
    var s := store;
    var n := |tools.keys|;
    var i := 0;
    while i < n
      invariant 0 <= i <= n
      invariant RegisteredUpTo(tools, store, s, i, cs)
      invariant forall j :: 0 <= j < i ==> ToolSchema(tools, j, cs).Success?
    {
      var schemaTool := ToolSchema(tools, i, cs);
      ToolSchemaId(tools, i, cs);
      if schemaTool.Failure? {
        assert tools.keys[i] in tools.keys && !InputsWellFormed(tools.vals[tools.keys[i]].cwl);
        assert FirstFailing(tools, cs, i);
        return Failure(schemaTool.error);
      }
      RegisterStep(tools, store, s, i, cs);
      s := s[schemaTool.value["$id"].s := Obj(schemaTool.value)];
      i := i + 1;
    }
    RegisteredAll(tools, store, s, cs);
    return Success(s);
  }

  /** No tool id is one of the two fixed ids. */
  lemma ToolRefNotFixed(stem: string)
    ensures ToolRef(stem) != "wic_main" && ToolRef(stem) != "wic_tag"
  {
    assert ToolRef(stem)[0] == 't';
  }

  /** Entries for the first `n` tools' ids kept unchanged keep `LatestWins`. */
  lemma LatestWinsKept(tools: Tools, s: map<string, Json>, s': map<string, Json>, n: int, cs: ConfigSchemas)
    requires 0 <= n <= |tools.keys| && LatestWins(tools, s, n, cs)
    requires forall j :: 0 <= j < n && ToolRef(tools.keys[j].stem) in s ==>
               ToolRef(tools.keys[j].stem) in s' && s'[ToolRef(tools.keys[j].stem)] == s[ToolRef(tools.keys[j].stem)]
    ensures LatestWins(tools, s', n, cs)
  {
  }

  /** Adding the two fixed entries keeps every tool entry and every entry
      of the store under another id. */
  lemma AddFixedEntries(tools: Tools, store: map<string, Json>, s: map<string, Json>,
                        main: Schema, tag: Schema, cs: ConfigSchemas)
    requires "$id" in main && main["$id"] == Str("wic_main")
    requires s.Keys == store.Keys + ToolIds(tools.keys)
    requires KeepsOthers(store, s, ToolIds(tools.keys))
    requires LatestWins(tools, s, |tools.keys|, cs)
    ensures var s' := s[main["$id"].s := Obj(main)]["wic_tag" := Obj(tag)];
            && s'.Keys == store.Keys + ToolIds(tools.keys) + {"wic_main", "wic_tag"}
            && KeepsOthers(store, s', ToolIds(tools.keys) + {"wic_main", "wic_tag"})
            && s'["wic_main"] == Obj(main) && s'["wic_tag"] == Obj(tag)
            && LatestWins(tools, s', |tools.keys|, cs)
  {
    var s' := s["wic_main" := Obj(main)]["wic_tag" := Obj(tag)];
    FixedKeepStore(store, s, ToolIds(tools.keys), Obj(main), Obj(tag));
    FixedKeepTools(tools, s, Obj(main), Obj(tag));
    LatestWinsKept(tools, s, s', |tools.keys|, cs);
  }

  lemma FixedKeepStore(store: map<string, Json>, s: map<string, Json>, ids: set<string>, main: Json, tag: Json)
    requires s.Keys == store.Keys + ids && KeepsOthers(store, s, ids)
    ensures var s' := s["wic_main" := main]["wic_tag" := tag];
            && s'.Keys == store.Keys + ids + {"wic_main", "wic_tag"}
            && KeepsOthers(store, s', ids + {"wic_main", "wic_tag"})
  {
  }

  lemma FixedKeepTools(tools: Tools, s: map<string, Json>, main: Json, tag: Json)
    ensures var s' := s["wic_main" := main]["wic_tag" := tag];
            forall j :: 0 <= j < |tools.keys| && ToolRef(tools.keys[j].stem) in s ==>
              ToolRef(tools.keys[j].stem) in s' && s'[ToolRef(tools.keys[j].stem)] == s[ToolRef(tools.keys[j].stem)]
  {
    forall j | 0 <= j < |tools.keys| {
      ToolRefNotFixed(tools.keys[j].stem);
    }
  }

  /** The registration step of `get_validator`: the tool schemas, then the
      root schema under `wic_main` and the tag schema under `wic_tag`.
      Existing entries survive unless one of these ids overwrites them; of
      two tools sharing a stem, in different namespaces, the later one's
      schema is the one kept. */
  method RegisterSchemas(tools: Tools, ymlStems: seq<string>, store: map<string, Json>,
                         useYml: bool, cs: ConfigSchemas)
    returns (r: Result<map<string, Json>, SchemaError>)
    ensures r.Success? <==> forall k :: k in tools.keys ==> InputsWellFormed(tools.vals[k].cwl)
    ensures r.Failure? ==> exists i :: FirstFailing(tools, cs, i) && ToolSchema(tools, i, cs) == Failure(r.error)
    ensures r.Success? ==> r.value.Keys == store.Keys + ToolIds(tools.keys) + {"wic_main", "wic_tag"}
    ensures r.Success? ==> KeepsOthers(store, r.value, ToolIds(tools.keys) + {"wic_main", "wic_tag"})
    ensures r.Success? ==>
              && r.value["wic_main"] == Obj(WicMainSchema(tools, ymlStems, store, useYml))
              && r.value["wic_tag"] == Obj(WicTagSchema())
    ensures r.Success? ==> LatestWins(tools, r.value, |tools.keys|, cs)
  {
    var registered := RegisterTools(tools, store, cs);
    if registered.Failure? {
      return Failure(registered.error);
    }
    var s := registered.value;
    var main := WicMainSchema(tools, ymlStems, s, useYml);
    var tag := WicTagSchema();
    MainSchemaIgnoresStore(tools, ymlStems, s, useYml, store, useYml);
    AddFixedEntries(tools, store, s, main, tag, cs);
    s := s[main["$id"].s := Obj(main)];
    s := s["wic_tag" := Obj(tag)];
    return Success(s);
  }

  /** After registration, the entry under `tools/<stem>.json` is the schema
      of the last catalog tool with that stem. */
  lemma RegisteredToolOfStem(tools: Tools, r: map<string, Json>, i: int, cs: ConfigSchemas)
    requires LatestWins(tools, r, |tools.keys|, cs)
    requires 0 <= i < |tools.keys| && LastOfStem(tools.keys, i, |tools.keys|)
    ensures ToolSchema(tools, i, cs).Success?
    ensures ToolRef(tools.keys[i].stem) in r
    ensures r[ToolRef(tools.keys[i].stem)] == Obj(ToolSchema(tools, i, cs).value)
  {
    LastOfStemIsLastOfId(tools.keys, i, |tools.keys|);
  }
}
