/** What the root schema's step alternatives accept, read through the
    evaluator: each alternative `oneOf [ {$ref: id}, {} ]` holds exactly
    where the referenced schema fails, since the empty schema always holds. */
module Acceptance {
  import opened JsonValues
  import opened WicTypes
  import opened Schemas
  import opened Evaluation

  /** A step alternative accepts exactly what its referenced schema rejects. */
  lemma StepEntryAccepts(fuel: nat, store: map<string, Json>, ref: string, inst: Json)
    requires fuel >= 2 && ref in store
    ensures Eval(fuel, store, StepEntry(ref), inst) == Not(Eval(fuel - 2, store, store[ref], inst))
  {
    OneOfRefOrEmpty(fuel, store, ref, inst);
  }

  /** The alternative of catalog tool `i` in the root schema accepts a step
      exactly when the schema registered under the tool's id rejects it. */
  lemma ToolStepAccepts(tools: Tools, ymlStems: seq<string>, store: map<string, Json>, useYml: bool,
                        fuel: nat, registered: map<string, Json>, i: int, inst: Json)
    requires 0 <= i < |tools.keys| && fuel >= 2 && ToolRef(tools.keys[i].stem) in registered
    ensures var items := StepItems(WicMainSchema(tools, ymlStems, store, useYml));
            var id := ToolRef(tools.keys[i].stem);
            && i < |items|
            && Eval(fuel, registered, items[i], inst) == Not(Eval(fuel - 2, registered, registered[id], inst))
  {
    var items := StepItems(WicMainSchema(tools, ymlStems, store, useYml));
    var id := ToolRef(tools.keys[i].stem);
    MainSchemaSteps(tools, ymlStems, store, useYml);
    EntryRefInverse(items[i], id);
    StepEntryAccepts(fuel, registered, id, inst);
  }

  /** Likewise for workflow `j`, whose alternative follows the tools'. */
  lemma WorkflowStepAccepts(tools: Tools, ymlStems: seq<string>, store: map<string, Json>, useYml: bool,
                            fuel: nat, registered: map<string, Json>, j: int, inst: Json)
    requires 0 <= j < |ymlStems| && fuel >= 2 && WorkflowRef(ymlStems[j]) in registered
    ensures var items := StepItems(WicMainSchema(tools, ymlStems, store, useYml));
            var id := WorkflowRef(ymlStems[j]);
            && |tools.keys| + j < |items|
            && Eval(fuel, registered, items[|tools.keys| + j], inst)
               == Not(Eval(fuel - 2, registered, registered[id], inst))
  {
    var items := StepItems(WicMainSchema(tools, ymlStems, store, useYml));
    var id := WorkflowRef(ymlStems[j]);
    MainSchemaSteps(tools, ymlStems, store, useYml);
    EntryRefInverse(items[|tools.keys| + j], id);
    StepEntryAccepts(fuel, registered, id, inst);
  }
}
