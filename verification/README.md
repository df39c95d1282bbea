# Schema generation and catalog discovery of the Workflow Inference Compiler

The Workflow Inference Compiler (wic) compiles YAML workflow files into CWL.
Before it compiles anything, it does two things:

- It discovers its two catalogs from directory files:
  - `get_tools_cwl` builds the tool catalog. Each line is a namespace and a directory. Every `*.cwl` file found under that directory that parses to a mapping is stored under `(stem, namespace)`. A file with a YAML scanner error is skipped, and of several files with the same key the last one written wins.
  - `get_yml_paths` builds the workflow catalog. It maps each namespace to the `*.yml` workflow files of that namespace, keyed by stem.
- It generates the JSON Schema (draft 2020-12) documents that workflow files are validated against:
  - one schema per tool (`cwl_schema`);
  - the recursive schema of the `wic:` metadata tag (`wic_tag_schema`);
  - the root schema whose step alternatives refer to every tool and workflow (`wic_main_schema`).

  `get_validator` registers all of these in an id-keyed store.

This project models both parts in Dafny and proves what they compute.

- Directory listings and file parsing are parameters.
  - `listing(dir)` is what the recursive glob returned, in the order it returned it.
  - `load(path)` is the outcome of reading and parsing one file: a document, a YAML scanner error, or any other failure.
  - Only a YAML scanner error is skipped (`src/wic/main.py:62-63`). Any other failure propagates, and so does a document that is not a mapping, because `tool.update` fails on it. Either one stops `get_tools_cwl`.
- Python's insertion-ordered `dict` is modelled by `Dicts.Dict`, a key sequence plus a map. Overwriting a key keeps its position.
  - So the tool catalog lists each `(stem, namespace)` at the first loadable file that gives it (`Catalog.GetToolsCwlOrder`). For example, lines `ns1`, `ns2`, `ns1` that each list one file with stem `s` give the keys `(s, ns1)`, `(s, ns2)` in that order, and the third line overwrites the first entry in place.
  - The workflow catalog lists namespaces at their first line and stems at their first stored path (`Catalog.GetYmlPathsOrder`). These orders fix the order of the step alternatives.
- JSON values are `JsonValues.Json`, and JSON objects are maps.

The modules:

- `Text`: pathlib's `stem`, `str.replace` of one character, and substring `in`.
- `Sorting`: `sorted(key=len, reverse=True)`. It is stable.
- `Folds`: the overwrite-by-key loop both catalog builders share.
- `Catalog`: `get_tools_cwl`, `get_yml_paths` and the flattening of workflow stems.
- `Schemas`: the schema generators and the registration loop.
- `Evaluation`: a three-valued evaluator for the subset of draft 2020-12 the generated schemas use.
- `Acceptance`: what the root schema's step alternatives accept.
- `SeqFacts`: small facts about sequences and maps used by the proofs.

Three behaviours of the code that a reader might not expect:

- **Registering an id twice overwrites.** The registration loop stores each tool schema under its `$id` (`src/wic/schemas/wic_schema.py:311-313`), and later writes replace earlier ones (`src/wic/schemas/wic_schema.py:318-320`).
  - Two tools with the same stem in different namespaces share the id `tools/<stem>.json`.
  - The later one in catalog order is the one kept (`Schemas.RegisterSchemas`, `Schemas.RegisteredToolOfStem`).
- **A step alternative accepts what its schema rejects.** Each alternative is `oneOf [ {$ref}, {} ]` (`src/wic/schemas/wic_schema.py:184`, `:203`).
  - Under draft 2020-12, `{}` accepts everything.
  - So the alternative holds exactly where the referenced schema fails (`Acceptance.StepEntryAccepts`).
- **A JSON `type` is emitted only for tools with a config schema.** Besides excluding unknown and `File` types and the `config` input, the code requires the tool to have a hand-written config schema before it emits any `type` (`src/wic/schemas/wic_schema.py:67-68`). `Schemas.TypeGate` states the condition as written.

## Model

Functions that only compute have no row of their own. The rows of the lemmas about them state what they do:

- `Folds.PutEach`: `Folds.PutEachKeys`, `Folds.PutEachKeeps`, `Folds.PutEachLast`, `Folds.PutEachOrder`, `Folds.PutEachOrigin`.
- `Dicts.PutAll`: `Dicts.PutAllKeys`, `Dicts.PutAllVals`, `Dicts.PutAllOrder`.
- `Catalog.LineYmlPaths`: `Catalog.LineYmlPathsSpec`, `Catalog.LineYmlPathOf`, `Catalog.LineYmlPathsOrder`.
- `Catalog.YmlOfLines`: `Catalog.YmlOfLinesMerge`, `Catalog.YmlOfLinesNamespaces`, `Catalog.YmlNamespaceOrder`, `Catalog.YmlStemOrder`.
- `Schemas.TypeGate`: `Schemas.InputProperty`.
- `Schemas.ToolSchema`: `Schemas.ToolSchemaId`.
- `Evaluation.Eval`, the draft 2020-12 keyword rules: `Evaluation.EmptyAcceptsAll`, `Evaluation.RefOnly`, `Evaluation.OneOfRefOrEmpty`.

| member | source | states |
|---|---|---|
| Text.RFind | src/wic/main.py:54 | the index of the last occurrence of the character, and -1 exactly when it does not occur |
| Text.RemoveAll | src/wic/schemas/wic_schema.py:65-66 | removing `?` from a type leaves no `?` and keeps every other character with its multiplicity |
| Text.RemoveAllAppend | src/wic/schemas/wic_schema.py:66 | removal distributes over concatenation |
| Text.HasSubstring | src/wic/main.py:100 | `'_inputs' in path` holds exactly when the substring occurs at some position of the path |
| Text.BaseName | src/wic/main.py:54 | a path's name is a slash-free suffix of the path |
| Text.BaseNameOf | src/wic/main.py:54 | the name is the whole path when it has no `/`, and otherwise what follows the path's last `/` |
| Text.Stem | src/wic/main.py:54 | a stem never contains a directory separator |
| Text.StemOfName | src/wic/main.py:54 | the stem is the name, or the part of it before a final suffix: a `.` past the first character followed by a non-empty rest without `.` |
| Text.StemWholeName | src/wic/main.py:54 | the stem is the whole name exactly when the name is empty, ends in `.`, or has no `.` past its first character |
| Text.StemOfGlobMatch | src/wic/main.py:54 | the stem of a globbed `dir/name.ext` is `name`, dots inside `name` included |
| Text.LastSeparator | src/wic/main.py:54 | in `a + c + b` with no `c` in `b`, the last `c` is the joining one |
| Sorting.Insert | src/wic/main.py:45 | inserting into a longest-first list keeps it longest-first and adds exactly the element |
| Sorting.SortByLengthDesc | src/wic/main.py:45 | the sorted listing is longest-first and a permutation of the glob result |
| Sorting.SortedMembers | src/wic/main.py:45 | sorting neither adds nor drops a path |
| Sorting.SortStable | src/wic/main.py:45 | paths of equal length keep their glob order, as Python's stable sort guarantees |
| Sorting.InsertStable | src/wic/main.py:45 | an inserted path goes after every path of its length |
| Dicts.Get | src/wic/main.py:105 | `dict.get` returns the stored value exactly for present keys |
| Dicts.Put | src/wic/main.py:60 | assignment stores the value; an existing key keeps its position and a new key is appended; no other key changes |
| Dicts.Union | src/wic/main.py:106 | `{**a, **b}` has `b`'s value on shared keys and `a`'s elsewhere; its keys are `a`'s in their order, then those only `b` has, in `b`'s order |
| Dicts.PutAllKeys | src/wic/main.py:106 | copying `b` into `a` gives the keys of both |
| Dicts.PutAllVals | src/wic/main.py:106 | copying `b` into `a` gives `b`'s value on `b`'s keys and `a`'s elsewhere |
| Dicts.FreshMembers | src/wic/main.py:60 | the keys a run of writes adds are exactly those written that were not already present |
| Dicts.FreshBefore | src/wic/main.py:60 | among the added keys, `x` is listed before `y` only if `x` was first written before `y` was ever written; no key is listed twice |
| Dicts.PutAllOrder | src/wic/main.py:106 | copying keys into `d` keeps `d`'s keys in front, in order, and appends the new ones in the order of their first write |
| Folds.KeysOfMembers | src/wic/main.py:49-60 | the keys a loop writes are those of its kept items |
| Folds.PutEachKeys | src/wic/main.py:49-60 | after the loop the keys are the earlier ones plus those of kept items |
| Folds.PutEachKeeps | src/wic/main.py:49-60 | a key no kept item has keeps its earlier value |
| Folds.PutEachLast | src/wic/main.py:98-102 | on a shared key the last kept item's value wins |
| Folds.PutEachOrder | src/wic/main.py:49-60 | earlier keys keep their positions; each new key follows at the first kept item that has it, in item order |
| Folds.PutEachOrigin | src/wic/main.py:98-102 | every stored value was there before or was written by a kept item with that key |
| Folds.LastExists | src/wic/main.py:98-102 | every kept item's key has a last kept item |
| Folds.ShortestWins | src/wic/main.py:37-45 | folding a longest-first listing leaves, for each key, the value of one of its shortest items, so shorter current files overwrite longer legacy copies |
| Catalog.WithStreams | src/wic/main.py:56-58 | the document gains `stdout` = `<stem>.out` and `stderr` = `<stem>.err`, replacing earlier settings, and every other field is kept |
| Catalog.ToolOf | src/wic/main.py:54-60 | a catalog entry records its path, and for a file that parses to a mapping its document with `stdout` and `stderr` named after the path's stem |
| Catalog.AddTools | src/wic/main.py:49-63 | one directory's loop succeeds exactly when none of its files is fatal: a failure other than a scanner error, or a document that is not a mapping |
| Catalog.AddToolsOutcome | src/wic/main.py:49-63 | one directory's loop either stops at its first fatal file and names it, or equals the keep-and-overwrite fold over its loadable files; files with scanner errors are skipped |
| Catalog.ToolsOfLines | src/wic/main.py:30-63 | building the catalog succeeds exactly when no file listed under any line is fatal |
| Catalog.ToolsOfLinesKeys | src/wic/main.py:30-60 | the catalog's keys are the `(stem, namespace)` of every loadable file of every line |
| Catalog.LineKeys | src/wic/main.py:49-60 | one line adds exactly the keys `(stem, namespace)` of its loadable files |
| Catalog.ToolsOfLinesKeeps | src/wic/main.py:30-60 | a key that no line gives keeps its earlier entry |
| Catalog.ToolsOfLinesEntry | src/wic/main.py:37-60 | the entry of a key comes from the last line of its namespace that has that stem, and from a shortest file with that stem in that line |
| Catalog.FirstLine | src/wic/main.py:30-60 | the catalog is the first line's fold followed by the other lines |
| Catalog.ToolsOfLinesOrigin | src/wic/main.py:49-60 | every entry was there before or was read from a loadable listed file of a line of its namespace, with the key's stem |
| Catalog.EmptyDirs | src/wic/main.py:47-48 | a warning is issued exactly for each directory whose glob found nothing |
| Catalog.GetToolsCwl | src/wic/main.py:17-68 | `get_tools_cwl` fails exactly when a listed file is fatal; on success it warns for exactly the directories whose glob found nothing |
| Catalog.GetToolsCwlSound | src/wic/main.py:17-68 | `get_tools_cwl`: fails exactly when a listed file is fatal; otherwise its keys are exactly the `(stem, namespace)` of loadable files, and each entry comes from such a file with its streams redirected |
| Catalog.ToolsOfLinesOrder | src/wic/main.py:30-60 | the catalog lists the earlier keys, then each new key where the first loadable file giving it is met: lines in order, each line's files longest first |
| Catalog.GetToolsCwlOrder | src/wic/main.py:17-68 | `get_tools_cwl` lists each key at the first loadable file giving it, lines in order and each line's files longest first; a later file with the same key does not move it |
| Catalog.GetToolsCwlBefore | src/wic/main.py:17-68 | catalog key `i` precedes key `j` only if a file giving `i` is met before every file giving `j` |
| Catalog.NamespacesKeptApart | src/wic/main.py:59-60 | one stem under two namespaces gives two distinct entries, each read from its own namespace |
| Catalog.LineYmlPathsSpec | src/wic/main.py:94-102 | one line's workflows are keyed by the stems of listed paths without `_inputs`; each value is such a path with that stem, and a shortest one |
| Catalog.LineYmlPathOf | src/wic/main.py:94-102 | the path stored for a stem is a listed path without `_inputs` with that stem, and a shortest one |
| Catalog.LineYmlPathsOrder | src/wic/main.py:94-102 | one line's stems are listed in the order of the first kept path with each, paths longest first |
| Catalog.NsDict | src/wic/main.py:105 | a namespace's earlier workflows, empty when the namespace is new |
| Catalog.YmlStepHere | src/wic/main.py:105-106 | a line's workflows are merged over its namespace's earlier ones |
| Catalog.YmlStepElsewhere | src/wic/main.py:106 | a line leaves every other namespace unchanged |
| Catalog.YmlOfLinesMerge | src/wic/main.py:88-106 | the loop over lines agrees with an independent per-namespace merge: namespaces present are those named, and each holds the merge of its lines in order |
| Catalog.YmlOfLinesNamespaces | src/wic/main.py:88-106 | the loop over lines adds exactly the namespaces the lines name |
| Catalog.YmlNamespaceOrder | src/wic/main.py:88-106 | the namespaces follow the earlier ones in the order of the first line naming each |
| Catalog.YmlStemOrder | src/wic/main.py:103-106 | within a namespace the earlier stems keep their places, and each new stem follows where the namespace's lines first store it |
| Catalog.NsMergeStems | src/wic/main.py:103-106 | a namespace split over several lines holds the stems of all of them |
| Catalog.NsMergeLast | src/wic/main.py:103-106 | on a stem shared by lines of one namespace, the last line's path wins |
| Catalog.NsMergeOrigin | src/wic/main.py:97-106 | every merged workflow is a listed path of a line of its namespace, keyed by its stem, and not an `_inputs` file |
| Catalog.GetYmlPaths | src/wic/main.py:71-108 | `get_yml_paths` holds exactly the namespaces the lines name, and warns for exactly the directories whose glob found nothing |
| Catalog.GetYmlPathsSound | src/wic/main.py:71-108 | `get_yml_paths`: a namespace is present exactly when a line names it; its stems are those of all its lines; each path is listed under one of them, has that stem and is not an `_inputs` file |
| Catalog.GetYmlPathsOrder | src/wic/main.py:71-108 | `get_yml_paths` lists namespaces in the order of the first line naming each, and a namespace's stems in the order its lines first store them |
| Catalog.GetYmlPathsLastLine | src/wic/main.py:103-106 | across lines of one namespace, the last line with a stem supplies its path |
| Catalog.FlattenMembers | src/wic/main.py:124 | the flattened list holds the stems of every namespace from a given position on |
| Catalog.YmlStems | src/wic/main.py:124 | a stem is in `yaml_stems` exactly when some namespace has it |
| Schemas.DefaultSchema | src/wic/schemas/wic_schema.py:20-34 | a closed object schema, naming the 2020-12 draft exactly when asked to |
| Schemas.ClosedObject | src/wic/schemas/wic_schema.py:76-80 | a closed object schema with exactly the given members |
| Schemas.Documented | src/wic/schemas/wic_schema.py:82-91 | a root schema naming the draft, with the given id, title, description and members and no other keyword |
| Schemas.DeclaredType | src/wic/schemas/wic_schema.py:59-66 | the declared type with every `?` removed and nothing else changed; a missing type is `''`; a non-string type is kept |
| Schemas.InputProperty | src/wic/schemas/wic_schema.py:50-69 | an input is titled and described by its `label` and `doc`; it carries a `type` exactly when the type is known, not `File`, the input is not `config` and the tool has a config schema; a `config` input extends the tool's config schema |
| Schemas.CwlSchema | src/wic/schemas/wic_schema.py:37-92 | a schema exists exactly when `inputs` is a mapping of mappings; a missing `inputs` and a non-mapping `inputs` are reported as such; the schema's id is `<prefix>/<name>.json` |
| Schemas.InputsProperties | src/wic/schemas/wic_schema.py:50-51 | every input, and nothing else, is documented |
| Schemas.SchemaOf | src/wic/schemas/wic_schema.py:82-91 | the root of a tool or workflow schema: id, title and description from the document, a single member for the step |
| Schemas.CwlSchemaInputs | src/wic/schemas/wic_schema.py:50-80 | the inputs documented under `properties/<step>/properties/in/properties` are exactly the document's inputs |
| Schemas.InPropertiesAt | src/wic/schemas/wic_schema.py:76-91 | the inputs are found under the step's `in` member |
| Schemas.CwlSchemaShape | src/wic/schemas/wic_schema.py:82-91 | a generated schema is closed, names the draft, has no `required`, and its only member is the step as a workflow file writes it (`<name>.yml` for workflows) |
| Schemas.StepSchemaShape | src/wic/schemas/wic_schema.py:71-80 | a step body is a closed object whose only member is `in` and which requires nothing, so `{}` is a valid step body |
| Schemas.StepChoices | src/wic/schemas/wic_schema.py:114-123 | a step's `wic` member is a dynamic reference to the `wic` anchor |
| Schemas.StepsSchema | src/wic/schemas/wic_schema.py:131-133 | `steps` has the single pattern `(i, name)`, whose schema is the step choices |
| Schemas.TagProperties | src/wic/schemas/wic_schema.py:141-166 | the tag has exactly the members `graphviz`, `steps`, `backend`, `backends`, `default_backend`, `namespace`, `inlineable` and `environment`; `steps` is the recursive schema and `inlineable` a boolean |
| Schemas.WicTagSchema | src/wic/schemas/wic_schema.py:158-166 | the tag schema has exactly the keys of a documented closed object plus `$dynamicAnchor`: id `wic_tag`, anchor `wic`, the draft, type object, `additionalProperties` false, its title and description, and the tag's members |
| Schemas.AnchoredTag | src/wic/schemas/wic_schema.py:158-163 | the tag's frame is a closed, documented object with id `wic_tag` that declares the anchor `wic` around the given members |
| Schemas.WicTagRecursive | src/wic/schemas/wic_schema.py:101-133 | the tag is recursive: the `wic` member of every step pattern refers back to the anchor the tag itself declares, so a step's `wic:` is again a full tag |
| Schemas.TagShape | src/wic/schemas/wic_schema.py:131-166 | the recursion holds for any schema with the tag's members and anchor |
| Schemas.ToolRefInjective | src/wic/schemas/wic_schema.py:184 | distinct stems give distinct tool ids |
| Schemas.ToolRef | src/wic/schemas/wic_schema.py:184 | a tool id is `tools/<stem>.json`, and the stem can be read back from it |
| Schemas.WorkflowRef | src/wic/schemas/wic_schema.py:195 | a workflow id is `workflows/<stem>.json`, and the stem can be read back from it |
| Schemas.StepEntry | src/wic/schemas/wic_schema.py:184 | an alternative `oneOf [ {$ref}, {} ]` built for a reference decodes back to that reference |
| Schemas.EntryRefInverse | src/wic/schemas/wic_schema.py:183-184 | the decoder of `oneOf [ {$ref}, {} ]` recovers the reference, and recognises exactly the alternatives built for it |
| Schemas.ToolEntries | src/wic/schemas/wic_schema.py:184 | one alternative per catalog tool, in catalog order, each decoding to that tool's id |
| Schemas.WorkflowEntries | src/wic/schemas/wic_schema.py:193-203 | one alternative per workflow stem, in the order given, each decoding to that workflow's id |
| Schemas.StepAlternatives | src/wic/schemas/wic_schema.py:184-211 | the tool alternatives come first, in catalog order, then the workflow ones; each decodes to its tool's or workflow's id |
| Schemas.ArrayOf | src/wic/schemas/wic_schema.py:208-211 | an array schema: `type` is `array`, with the given description and item schema and no other keyword |
| Schemas.StepsSchemaOf | src/wic/schemas/wic_schema.py:208-211 | the steps are an array whose items are any of the alternatives |
| Schemas.MainProperties | src/wic/schemas/wic_schema.py:228-229 | a workflow file's `wic` member is the tag schema and its `steps` member the steps schema |
| Schemas.MainPropertiesKeys | src/wic/schemas/wic_schema.py:228-229 | the root's members are exactly `wic`, `steps`, `inputs` and `outputs`; as the root is closed (`Schemas.WicMainSchema`), a workflow file may carry no others |
| Schemas.Rooted | src/wic/schemas/wic_schema.py:223-229 | a closed object schema naming the draft, with the given id, title and members and no other keyword |
| Schemas.WicMainSchema | src/wic/schemas/wic_schema.py:170-231 | the root schema is the closed object `wic_main`, naming the draft, with its fixed title and no other keyword; its members are the tag and the steps |
| Schemas.MainItems | src/wic/schemas/wic_schema.py:211 | every step of a workflow file is checked against the items schema |
| Schemas.StepItemsOfMain | src/wic/schemas/wic_schema.py:208-229 | the alternatives found under `properties/steps/items/anyOf` are the ones generated |
| Schemas.MainSchemaSteps | src/wic/schemas/wic_schema.py:183-211 | the root schema's steps: exactly one alternative per tool then one per workflow, each referring to its id |
| Schemas.MainSchemaIgnoresStore | src/wic/schemas/wic_schema.py:170-203 | the root schema depends neither on the store nor on `use_yml_schema` (the branch using them is commented out) |
| Schemas.ToolRefMatchesId | src/wic/schemas/wic_schema.py:184-188 | each tool alternative refers to exactly the `$id` the tool's own schema carries |
| Schemas.WorkflowRefMatchesId | src/wic/schemas/wic_schema.py:195 | each workflow alternative refers to exactly the `$id` of a workflow schema generated for that stem |
| Schemas.ToolIdIs | src/wic/schemas/wic_schema.py:87 | a tool's schema is identified as `tools/<stem>.json` |
| Schemas.WorkflowIdIs | src/wic/schemas/wic_schema.py:87 | a workflow's schema is identified as `workflows/<stem>.json` |
| Schemas.ToolIdsMembers | src/wic/schemas/wic_schema.py:311-313 | the ids registered for the catalog are the ids of its stems |
| Schemas.LastOfStemIsLastOfId | src/wic/schemas/wic_schema.py:311-313 | being the last tool with a stem is being the last tool with an id |
| Schemas.LatestInStep | src/wic/schemas/wic_schema.py:311-313 | storing one more schema keeps the last schema of every id stored |
| Schemas.LatestWinsStep | src/wic/schemas/wic_schema.py:311-313 | the same, for the catalog's schemas |
| Schemas.ToolIdsStep | src/wic/schemas/wic_schema.py:311-313 | one more tool adds its id |
| Schemas.RegisterStep | src/wic/schemas/wic_schema.py:311-313 | one iteration of the loop keeps the registration invariant |
| Schemas.ToolSchemaId | src/wic/schemas/wic_schema.py:312-313 | a tool's schema exists exactly when its inputs are well formed, and it is stored under the tool's id |
| Schemas.RegisteredAll | src/wic/schemas/wic_schema.py:311-313 | after the whole loop every tool is registered |
| Schemas.RegisterTools | src/wic/schemas/wic_schema.py:311-316 | the loop fails exactly when a tool's inputs cannot be documented, with the error of the first such tool in catalog order; otherwise the store gains exactly the tool ids, other entries are unchanged, and each id holds the schema of the last tool with it |
| Schemas.ToolRefNotFixed | src/wic/schemas/wic_schema.py:318-320 | no tool id is `wic_main` or `wic_tag` |
| Schemas.LatestWinsKept | src/wic/schemas/wic_schema.py:318-320 | keeping the tool entries keeps their schemas |
| Schemas.AddFixedEntries | src/wic/schemas/wic_schema.py:318-320 | adding the root and tag schemas overwrites no tool entry |
| Schemas.FixedKeepStore | src/wic/schemas/wic_schema.py:318-320 | adding the fixed entries keeps every other entry of the store |
| Schemas.FixedKeepTools | src/wic/schemas/wic_schema.py:318-320 | adding the fixed entries keeps every tool entry |
| Schemas.RegisterSchemas | src/wic/schemas/wic_schema.py:297-320 | registration fails exactly when some tool's inputs cannot be documented, with the first such tool's error; otherwise the store gains the tool ids, `wic_main` and `wic_tag`, keeps every other entry, holds the root and tag schemas under their ids, and the last tool of each stem under its id |
| Schemas.RegisteredToolOfStem | src/wic/schemas/wic_schema.py:311-313 | after registration, `tools/<stem>.json` holds the schema of the last catalog tool with that stem |
| Evaluation.EmptyAcceptsAll | src/wic/schemas/wic_schema.py:183 | the empty schema accepts every step |
| Evaluation.RefOnly | src/wic/schemas/wic_schema.py:325-329 | a `$ref` is resolved by exact id in the store |
| Evaluation.OneOfRefOrEmpty | src/wic/schemas/wic_schema.py:183-184 | `oneOf [ {$ref}, {} ]` holds exactly where the referenced schema fails |
| Acceptance.StepEntryAccepts | src/wic/schemas/wic_schema.py:183-184 | a step alternative accepts exactly what its referenced schema rejects |
| Acceptance.ToolStepAccepts | src/wic/schemas/wic_schema.py:184 | tool `i`'s alternative in the root schema accepts a step exactly when the schema registered under the tool's id rejects it |
| Acceptance.WorkflowStepAccepts | src/wic/schemas/wic_schema.py:203 | the same for each workflow's alternative |

## Left out

- Reading the directory files (`utils.read_lines_pairs`) and copying the configuration files (`utils.copy_config_files`) are left out. The lines are given as a sequence.
- `glob`, `os.path.relpath` and the `**/*.cwl` / `**/*.yml` patterns are left out. `listing(dir)` is a parameter, in the order glob returned the paths.
- Opening files and YAML parsing are left out. `load(path)` is a parameter with three outcomes: document, scanner error, other failure.
- Catalog.GetToolsCwl: warnings are returned as a list of directories (`Catalog.EmptyDirs`) instead of being printed, and only with a successful result. Python prints each line's warning when it reaches the line, so when a later file fails, the earlier lines' warnings have already been printed; the model's failure carries none.
- Catalog.GetYmlPaths: `get_yml_paths` stores `pathlib.Path` objects; the model stores the path strings glob returned. `Path` normalises some spellings (a repeated `/`, a `.` segment), which the model does not.
- `mkdir` and writing schemas to disk (`write_to_disk`) are file-system side effects.
- Building the `RefResolver` and `Draft202012Validator` and `check_schema` (`src/wic/schemas/wic_schema.py:329-336`) are calls into the jsonschema library. `Evaluation` gives the meaning of only the keywords the generated schemas rely on.
- Evaluation: `$dynamicRef`, `patternProperties`, `$dynamicAnchor` resolution and every keyword outside the subset evaluate to unknown (`None`). Nesting is bounded by a `fuel` argument, and deeper nesting is also unknown.
- The hand-written config schemas come from the `biobb` module. That module is not part of this model, so they are a parameter.
- `compile_workflow_generate_schema`, `get_args` and the rest of `main` (compilation, DAG drawing, inference setup) are not modelled. A workflow's schema is the same `Schemas.CwlSchema` with the `workflows` prefix, applied to whatever compiled document is given.
- Aliasing at `src/wic/schemas/wic_schema.py:54`: the `config` entry shares, and mutates, the global config schema of the tool. The model copies it instead. A later call for the same tool name overwrites `title` and `description` again, so generated results agree. The mutation of the global table is not modelled.
- The mutable default `schema_store={}` of `get_validator` persists across calls in Python. The model takes the store as an explicit argument.
- JSON object key order is not modelled (schemas are maps). Python dict insertion order is modelled for the tool catalog, the workflow catalog and the order of step alternatives.
- YAML scalars other than strings, booleans and integers (floats, dates) are not modelled. Numbers are integers.
- Schemas.CwlSchema: a non-mapping input is reported as `InputNotMapping` without the input's name. Python raises at the first such input in dict order.
- Text.Stem: the function's own contract states only that the stem has no `/`. Its value is stated by `Text.StemOfName` and `Text.StemWholeName`, kept apart so that proofs unfolding a stem do not carry them.
- Text.BaseName: the function's own contract states only that the name is a `/`-free end of the path; `Text.BaseNameOf` states the rest. pathlib also drops a trailing `/` before taking the name. Glob returns file paths, which have none, and the model does not drop it.
- Concurrency and the cost of globbing are outside a pure model.
