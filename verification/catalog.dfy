/** Building the catalogs from the configuration lines: the tool catalog
    (`get_tools_cwl`) and the per-namespace workflow paths (`get_yml_paths`).
    Directory listings and file parsing are inputs: `listing(dir)` is what
    the recursive glob returned for a directory, in the order it returned
    it, and `load(path)` is what reading and parsing that file gave. */
module Catalog {
  import opened SeqFacts
  import opened Wrappers
  import opened JsonValues
  import opened Text
  import opened Sorting
  import opened WicTypes
  import opened Dicts
  import opened Folds

  /** One line of a directories file: a namespace and a directory. */
  datatype ConfigLine = ConfigLine(namespace: string, dir: string)

  /** The outcome of reading and parsing one tool file. */
  datatype Load =
    | Parsed(doc: Json)   // the YAML document
    | ScannerError        // a YAML scanner error: the file is skipped
    | OtherError          // any other failure: it propagates

  /** Why building the tool catalog stops. */
  datatype CatalogError =
    | LoadFailed(path: string)    // a failure other than a scanner error
    | NotAMapping(path: string)   // the document is not a mapping (e.g. an empty file)

  /** A file that contributes a tool. */
  predicate Loadable(load: string -> Load, p: string)
  {
    load(p).Parsed? && load(p).doc.Obj?
  }

  /** A file that aborts the catalog. */
  predicate Fatal(load: string -> Load, p: string)
  {
    load(p).OtherError? || (load(p).Parsed? && !load(p).doc.Obj?)
  }

  /** The tool document with its standard output and error redirected to
      files named after the stem, replacing any earlier setting. */
  function WithStreams(doc: Fields, stem: string): (r: Fields)
    ensures r.Keys == doc.Keys + {"stdout", "stderr"}
    ensures r["stdout"] == Str(stem + ".out") && r["stderr"] == Str(stem + ".err")
    ensures forall f :: f in doc && f != "stdout" && f != "stderr" ==> r[f] == doc[f]
  {
    doc["stdout" := Str(stem + ".out")]["stderr" := Str(stem + ".err")]
  }

  /** The document of a loadable file (only loadable files reach this). */
  function DocFields(l: Load): Fields
  {
    if l.Parsed? && l.doc.Obj? then l.doc.fields else map[]
  }

  /** The catalog entry a file gives: its path and its document with the
      streams redirected. */
  function ToolOf(load: string -> Load, p: string): (r: Tool)
    ensures r.path == p
    ensures "stdout" in r.cwl && "stderr" in r.cwl
    ensures r.cwl["stdout"] == Str(Stem(p) + ".out") && r.cwl["stderr"] == Str(Stem(p) + ".err")
    ensures Loadable(load, p) ==> r.cwl == WithStreams(load(p).doc.fields, Stem(p))
  {
    Tool(p, WithStreams(DocFields(load(p)), Stem(p)))
  }

  /** Why the catalog stops at `p`. */
  function ErrorAt(load: string -> Load, p: string): CatalogError
  {
    if load(p).OtherError? then LoadFailed(p) else NotAMapping(p)
  }

  // ---------------------------------------------------------------------
  // get_tools_cwl

  /** The loop over one line's paths: each loadable file is stored under
      (its stem, the line's namespace), overwriting what was there. */
  function AddTools(ns: string, paths: seq<string>, load: string -> Load, acc: Tools)
    : (r: Result<Tools, CatalogError>)
    ensures r.Success? <==> forall p :: p in paths ==> !Fatal(load, p)
    decreases |paths|
  {
    if paths == [] then Success(acc)
    else
      var p := paths[0];
      assert p in paths && forall q :: q in paths <==> q == p || q in paths[1..];
      match load(p)
      case ScannerError => AddTools(ns, paths[1..], load, acc)
      case OtherError => Failure(LoadFailed(p))
      case Parsed(doc) =>
        if !doc.Obj? then Failure(NotAMapping(p))
        else AddTools(ns, paths[1..], load, Put(acc, StepId(Stem(p), ns), ToolOf(load, p)))
  }

  /** The fold `AddTools` performs when it does not stop. */
  function KeepTool(load: string -> Load): string -> bool { p => Loadable(load, p) }
  function ToolKey(ns: string): string -> StepId { p => StepId(Stem(p), ns) }
  function ToolEntry(load: string -> Load): string -> Tool { p => ToolOf(load, p) }

  /** One line's loop either stops at its first fatal file, naming it, or
      is the keep-and-overwrite fold of the loadable files: scanner errors
      are skipped. */
  lemma {:induction false} AddToolsOutcome(ns: string, paths: seq<string>, load: string -> Load, acc: Tools)
    ensures var r := AddTools(ns, paths, load, acc);
            && (r.Success? <==> forall p :: p in paths ==> !Fatal(load, p))
            && (r.Success? ==> r.value == PutEach(paths, KeepTool(load), ToolKey(ns), ToolEntry(load), acc))
            && (r.Failure? ==> exists i :: FirstFatal(paths, load, i) && r.error == ErrorAt(load, paths[i]))
    decreases |paths|
  {
    if paths != [] {
      var p := paths[0];
      var rest := paths[1..];
      assert forall q :: q in paths <==> q == p || q in rest;
      var r := AddTools(ns, paths, load, acc);
      if Fatal(load, p) {
        assert FirstFatal(paths, load, 0);
      } else {
        var acc' := if Loadable(load, p) then Put(acc, StepId(Stem(p), ns), ToolOf(load, p)) else acc;
        assert r == AddTools(ns, rest, load, acc');
        AddToolsOutcome(ns, rest, load, acc');
        if r.Failure? {
          var i :| FirstFatal(rest, load, i) && r.error == ErrorAt(load, rest[i]);
          assert paths[i + 1] == rest[i];
          assert FirstFatal(paths, load, i + 1);
        }
      }
    }
  }

  /** `paths[i]` is the first file that stops the loop. */
  predicate FirstFatal(paths: seq<string>, load: string -> Load, i: int)
  {
    0 <= i < |paths| && Fatal(load, paths[i]) && forall m :: 0 <= m < i ==> !Fatal(load, paths[m])
  }

  /** `get_tools_cwl`: every line's listing sorted longest first, then
      folded into one catalog shared by all lines. */
  function ToolsOfLines(lines: seq<ConfigLine>, listing: string -> seq<string>,
                        load: string -> Load, acc: Tools): (r: Result<Tools, CatalogError>)
    ensures r.Success? <==> forall l, p :: l in lines && p in listing(l.dir) ==> !Fatal(load, p)
    decreases |lines|
  {
    if lines == [] then Success(acc)
    else
      SortedMembers(listing(lines[0].dir));
      assert forall l :: l in lines <==> l == lines[0] || l in lines[1..];
      match AddTools(lines[0].namespace, SortByLengthDesc(listing(lines[0].dir)), load, acc)
      case Failure(e) => Failure(e)
      case Success(tools) => ToolsOfLines(lines[1..], listing, load, tools)
  }

  /** The line lists a loadable file that gives key `k`. */
  predicate LineHas(line: ConfigLine, listing: string -> seq<string>, load: string -> Load, k: StepId)
  {
    line.namespace == k.namespace && exists q :: q in listing(line.dir) && Loadable(load, q) && Stem(q) == k.stem
  }

  /** A key no line gives keeps its earlier entry. */
  lemma {:induction false} ToolsOfLinesKeeps(lines: seq<ConfigLine>, listing: string -> seq<string>,
                                             load: string -> Load, acc: Tools, k: StepId)
    requires ToolsOfLines(lines, listing, load, acc).Success?
    requires k in acc.vals && forall m :: 0 <= m < |lines| ==> !LineHas(lines[m], listing, load, k)
    ensures var r := ToolsOfLines(lines, listing, load, acc).value; k in r.vals && r.vals[k] == acc.vals[k]
    decreases |lines|
  {
    if lines != [] {
      var l0 := lines[0];
      var sorted := SortByLengthDesc(listing(l0.dir));
      AddToolsOutcome(l0.namespace, sorted, load, acc);
      var tools := AddTools(l0.namespace, sorted, load, acc).value;
      KeysOfMembers(sorted, KeepTool(load), ToolKey(l0.namespace), k);
      SortedMembers(listing(l0.dir));
      assert !LineHas(lines[0], listing, load, k);
      PutEachKeeps(sorted, KeepTool(load), ToolKey(l0.namespace), ToolEntry(load), acc, k);
      forall m | 0 <= m < |lines| - 1 ensures !LineHas(lines[1..][m], listing, load, k) {
        assert lines[1..][m] == lines[m + 1];
      }
      ToolsOfLinesKeeps(lines[1..], listing, load, tools, k);
    }
  }

  /** The catalog holds exactly the earlier keys and the keys the lines give. */
  lemma {:induction false} ToolsOfLinesKeys(lines: seq<ConfigLine>, listing: string -> seq<string>,
                                            load: string -> Load, acc: Tools, k: StepId)
    requires ToolsOfLines(lines, listing, load, acc).Success?
    ensures k in ToolsOfLines(lines, listing, load, acc).value.vals
            <==> k in acc.vals || exists l :: l in lines && LineHas(l, listing, load, k)
    decreases |lines|
  {
    if lines != [] {
      var tools := FirstLine(lines, listing, load, acc);
      LineKeys(lines[0], listing, load, acc, k);
      ToolsOfLinesKeys(lines[1..], listing, load, tools, k);
      assert forall l :: l in lines <==> l == lines[0] || l in lines[1..];
    }
  }

  /** One line's fold adds exactly the keys the line has. */
  lemma LineKeys(line: ConfigLine, listing: string -> seq<string>, load: string -> Load, acc: Tools, k: StepId)
    ensures var sorted := SortByLengthDesc(listing(line.dir));
            var tools := PutEach(sorted, KeepTool(load), ToolKey(line.namespace), ToolEntry(load), acc);
            k in tools.vals <==> k in acc.vals || LineHas(line, listing, load, k)
  {
    var sorted := SortByLengthDesc(listing(line.dir));
    PutEachKeys(sorted, KeepTool(load), ToolKey(line.namespace), ToolEntry(load), acc);
    KeysOfMembers(sorted, KeepTool(load), ToolKey(line.namespace), k);
    SortedMembers(listing(line.dir));
  }

  /** Overwriting across and within lines: the entry for a stem in a
      namespace comes from the last line of that namespace listing a
      loadable file with that stem, and within that line from a shortest
      such file. */
  lemma {:induction false} ToolsOfLinesEntry(lines: seq<ConfigLine>, listing: string -> seq<string>,
                                             load: string -> Load, acc: Tools, j: int, p: string)
    requires ToolsOfLines(lines, listing, load, acc).Success?
    requires 0 <= j < |lines| && p in listing(lines[j].dir) && Loadable(load, p)
    requires forall m :: j < m < |lines| ==> !LineHas(lines[m], listing, load, StepId(Stem(p), lines[j].namespace))
    ensures var r := ToolsOfLines(lines, listing, load, acc).value;
            var k := StepId(Stem(p), lines[j].namespace);
            && k in r.vals
            && var t := r.vals[k];
            && t.path in listing(lines[j].dir) && Loadable(load, t.path) && Stem(t.path) == Stem(p)
            && |t.path| <= |p| && t == ToolOf(load, t.path)
    decreases |lines|
  {
    var tools := FirstLine(lines, listing, load, acc);
    var k := StepId(Stem(p), lines[j].namespace);
    LaterLinesLack(lines, listing, load, k, j);
    if j == 0 {
      ShortestWins(listing(lines[0].dir), KeepTool(load), ToolKey(lines[0].namespace), ToolEntry(load), acc, p);
      ToolsOfLinesKeeps(lines[1..], listing, load, tools, k);
    } else {
      ToolsOfLinesEntry(lines[1..], listing, load, tools, j - 1, p);
    }
  }

  /** One step of `ToolsOfLines`: the first line's tools, then the rest. */
  lemma FirstLine(lines: seq<ConfigLine>, listing: string -> seq<string>, load: string -> Load, acc: Tools)
    returns (tools: Tools)
    requires lines != [] && ToolsOfLines(lines, listing, load, acc).Success?
    ensures var sorted := SortByLengthDesc(listing(lines[0].dir));
            tools == PutEach(sorted, KeepTool(load), ToolKey(lines[0].namespace), ToolEntry(load), acc)
    ensures ToolsOfLines(lines, listing, load, acc) == ToolsOfLines(lines[1..], listing, load, tools)
  {
    var sorted := SortByLengthDesc(listing(lines[0].dir));
    AddToolsOutcome(lines[0].namespace, sorted, load, acc);
    tools := AddTools(lines[0].namespace, sorted, load, acc).value;
  }

  /** Lines after `j` that lack key `k` still lack it once the first line is dropped. */
  lemma LaterLinesLack(lines: seq<ConfigLine>, listing: string -> seq<string>, load: string -> Load,
                       k: StepId, j: int)
    requires 0 <= j < |lines|
    requires forall m :: j < m < |lines| ==> !LineHas(lines[m], listing, load, k)
    ensures forall m :: j - 1 < m < |lines| - 1 ==> !LineHas(lines[1..][m], listing, load, k)
  {
    forall m | j - 1 < m < |lines| - 1 ensures !LineHas(lines[1..][m], listing, load, k) {
      assert lines[1..][m] == lines[m + 1];
    }
  }

  /** An entry for key `k` read from a loadable file of a line of its
      namespace, with that key's stem. */
  predicate EntryFrom(k: StepId, t: Tool, lines: seq<ConfigLine>, listing: string -> seq<string>,
                      load: string -> Load)
  {
    && Loadable(load, t.path) && Stem(t.path) == k.stem && t == ToolOf(load, t.path)
    && exists l :: l in lines && l.namespace == k.namespace && t.path in listing(l.dir)
  }

  /** Every entry was there before or was read from a line's file. */
  lemma {:induction false} ToolsOfLinesOrigin(lines: seq<ConfigLine>, listing: string -> seq<string>,
                                              load: string -> Load, acc: Tools, k: StepId)
    requires ToolsOfLines(lines, listing, load, acc).Success?
    requires k in ToolsOfLines(lines, listing, load, acc).value.vals
    ensures var r := ToolsOfLines(lines, listing, load, acc).value;
            (k in acc.vals && r.vals[k] == acc.vals[k]) || EntryFrom(k, r.vals[k], lines, listing, load)
    decreases |lines|
  {
    if lines != [] {
      var l0 := lines[0];
      var sorted := SortByLengthDesc(listing(l0.dir));
      AddToolsOutcome(l0.namespace, sorted, load, acc);
      var tools := AddTools(l0.namespace, sorted, load, acc).value;
      var r := ToolsOfLines(lines, listing, load, acc).value;
      ToolsOfLinesOrigin(lines[1..], listing, load, tools, k);
      if k in tools.vals && r.vals[k] == tools.vals[k] {
        PutEachOrigin(sorted, KeepTool(load), ToolKey(l0.namespace), ToolEntry(load), acc, k);
        if !(k in acc.vals && tools.vals[k] == acc.vals[k]) {
          var q :| q in sorted && Loadable(load, q) && StepId(Stem(q), l0.namespace) == k && tools.vals[k] == ToolOf(load, q);
          SortedMembers(listing(l0.dir));
          assert EntryFrom(k, r.vals[k], lines, listing, load);
        }
      } else {
        assert forall l :: l in lines[1..] ==> l in lines;
      }
    }
  }

  /** The directories reported as holding no files, in line order. */
  function EmptyDirs(lines: seq<ConfigLine>, listing: string -> seq<string>): (r: seq<string>)
    ensures forall d :: d in r <==> exists l :: l in lines && l.dir == d && listing(d) == []
  {
    if lines == [] then []
    else
      var rest := EmptyDirs(lines[1..], listing);
      assert forall l :: l in lines <==> l == lines[0] || l in lines[1..];
      if listing(lines[0].dir) == [] then [lines[0].dir] + rest else rest
  }

  /** The catalog and the warnings issued while building it. */
  datatype Discovery<T> = Discovery(found: T, warnings: seq<string>)

  /** `get_tools_cwl`: fails exactly when a listed file is fatal; otherwise
      it warns about exactly the directories with no files. */
  function GetToolsCwl(lines: seq<ConfigLine>, listing: string -> seq<string>, load: string -> Load)
    : (r: Result<Discovery<Tools>, CatalogError>)
    ensures r.Success? <==> forall l, p :: l in lines && p in listing(l.dir) ==> !Fatal(load, p)
    ensures r.Success? ==>
              forall d :: d in r.value.warnings <==> exists l :: l in lines && l.dir == d && listing(d) == []
  {
    match ToolsOfLines(lines, listing, load, Empty())
    case Failure(e) => Failure(e)
    case Success(tools) => Success(Discovery(tools, EmptyDirs(lines, listing)))
  }

  /** The catalog: built unless a listed file is fatal; its keys are the
      (stem, namespace) of every loadable file; each entry was read from a
      file with the key's stem under a line of the key's namespace, with
      its streams redirected to `<stem>.out` and `<stem>.err`. */
  lemma GetToolsCwlSound(lines: seq<ConfigLine>, listing: string -> seq<string>, load: string -> Load, k: StepId)
    ensures var r := GetToolsCwl(lines, listing, load);
            && (r.Success? <==> forall l, p :: l in lines && p in listing(l.dir) ==> !Fatal(load, p))
            && (r.Success? ==> (k in r.value.found.vals <==> exists l :: l in lines && LineHas(l, listing, load, k)))
            && (r.Success? && k in r.value.found.vals ==>
                  var t := r.value.found.vals[k];
                  && EntryFrom(k, t, lines, listing, load)
                  && t.cwl["stdout"] == Str(k.stem + ".out") && t.cwl["stderr"] == Str(k.stem + ".err"))
  {
    var r := ToolsOfLines(lines, listing, load, Empty());
    if r.Success? {
      ToolsOfLinesKeys(lines, listing, load, Empty(), k);
      if k in r.value.vals {
        ToolsOfLinesOrigin(lines, listing, load, Empty(), k);
      }
    }
  }

  /** The same stem under two namespaces gives two entries, one per
      namespace, each read from a file of its own namespace. */
  lemma NamespacesKeptApart(lines: seq<ConfigLine>, listing: string -> seq<string>, load: string -> Load,
                            l1: ConfigLine, p1: string, l2: ConfigLine, p2: string)
    requires GetToolsCwl(lines, listing, load).Success?
    requires l1 in lines && p1 in listing(l1.dir) && Loadable(load, p1)
    requires l2 in lines && p2 in listing(l2.dir) && Loadable(load, p2)
    requires Stem(p1) == Stem(p2) && l1.namespace != l2.namespace
    ensures var found := GetToolsCwl(lines, listing, load).value.found;
            var k1 := StepId(Stem(p1), l1.namespace);
            var k2 := StepId(Stem(p2), l2.namespace);
            && k1 in found.vals && k2 in found.vals && k1 != k2
            && EntryFrom(k1, found.vals[k1], lines, listing, load)
            && EntryFrom(k2, found.vals[k2], lines, listing, load)
  {
    var k1 := StepId(Stem(p1), l1.namespace);
    var k2 := StepId(Stem(p2), l2.namespace);
    assert LineHas(l1, listing, load, k1) && LineHas(l2, listing, load, k2);
    GetToolsCwlSound(lines, listing, load, k1);
    GetToolsCwlSound(lines, listing, load, k2);
  }

  /** The keys the lines give, in the order the loop meets them: line by
      line, each line's loadable files longest first; repeats included. */
  function LinesKeys(lines: seq<ConfigLine>, listing: string -> seq<string>, load: string -> Load): seq<StepId>
    decreases |lines|
  {
    if lines == [] then []
    else KeptKeys(SortByLengthDesc(listing(lines[0].dir)), KeepTool(load), ToolKey(lines[0].namespace))
         + LinesKeys(lines[1..], listing, load)
  }

  /** The catalog's order: the earlier keys, then each new key where the
      first loadable file giving it is met. */
  lemma {:induction false} ToolsOfLinesOrder(lines: seq<ConfigLine>, listing: string -> seq<string>,
                                             load: string -> Load, acc: Tools)
    requires ToolsOfLines(lines, listing, load, acc).Success?
    ensures ToolsOfLines(lines, listing, load, acc).value.keys
            == acc.keys + Fresh(LinesKeys(lines, listing, load), acc.vals.Keys)
    decreases |lines|
  {
    if lines != [] {
      var sorted := SortByLengthDesc(listing(lines[0].dir));
      var ns := lines[0].namespace;
      var first := KeptKeys(sorted, KeepTool(load), ToolKey(ns));
      var rest := LinesKeys(lines[1..], listing, load);
      var tools := FirstLine(lines, listing, load, acc);
      PutEachOrder(sorted, KeepTool(load), ToolKey(ns), ToolEntry(load), acc);
      PutEachKeys(sorted, KeepTool(load), ToolKey(ns), ToolEntry(load), acc);
      KeptKeysOf(sorted, KeepTool(load), ToolKey(ns));
      ToolsOfLinesOrder(lines[1..], listing, load, tools);
      FreshAppend(first, rest, acc.vals.Keys);
      ConcatAssoc(acc.keys, Fresh(first, acc.vals.Keys), Fresh(rest, tools.vals.Keys));
    }
  }

  /** `get_tools_cwl` lists each key where the first loadable file giving it
      is met, lines in order and each line's files longest first; a key
      given again later keeps its place. */
  lemma GetToolsCwlOrder(lines: seq<ConfigLine>, listing: string -> seq<string>, load: string -> Load)
    requires GetToolsCwl(lines, listing, load).Success?
    ensures GetToolsCwl(lines, listing, load).value.found.keys == Fresh(LinesKeys(lines, listing, load), {})
  {
    var r := ToolsOfLines(lines, listing, load, Empty());
    assert GetToolsCwl(lines, listing, load).value.found == r.value;
    ToolsOfLinesOrder(lines, listing, load, Empty());
    FreshFromEmpty<StepId, Tool>(LinesKeys(lines, listing, load));
  }

  /** Hence catalog key `i` precedes key `j` exactly because some file
      giving `i` is met before every file giving `j`. */
  lemma GetToolsCwlBefore(lines: seq<ConfigLine>, listing: string -> seq<string>, load: string -> Load,
                          i: int, j: int)
    requires GetToolsCwl(lines, listing, load).Success?
    requires 0 <= i < j < |GetToolsCwl(lines, listing, load).value.found.keys|
    ensures var keys := GetToolsCwl(lines, listing, load).value.found.keys;
            FirstBefore(LinesKeys(lines, listing, load), keys[i], keys[j])
  {
    GetToolsCwlOrder(lines, listing, load);
    FreshBefore(LinesKeys(lines, listing, load), {}, i, j);
  }

  // ---------------------------------------------------------------------
  // get_yml_paths

  /** The loop over one line's paths: every path not containing `_inputs`
      (the generated inputs files) is stored under its stem. */
  function KeepYml(): string -> bool { p => !HasSubstring(p, "_inputs") }
  function YmlKey(): string -> string { p => Stem(p) }
  function SamePath(): string -> string { p => p }

  /** One line's workflows, sorted longest first and folded. */
  function LineYmlPaths(dir: string, listing: string -> seq<string>): Dict<string, string>
  {
    PutEach(SortByLengthDesc(listing(dir)), KeepYml(), YmlKey(), SamePath(), Empty())
  }

  /** A line's workflows: one per stem of a listed path without `_inputs`,
      and that path is a shortest listed one with that stem. */
  lemma LineYmlPathsSpec(dir: string, listing: string -> seq<string>, s: string)
    ensures var d := LineYmlPaths(dir, listing);
            && (s in d.vals <==> exists p :: p in listing(dir) && !HasSubstring(p, "_inputs") && Stem(p) == s)
            && (s in d.vals ==>
                  var v := d.vals[s];
                  && v in listing(dir) && !HasSubstring(v, "_inputs") && Stem(v) == s
                  && forall p :: p in listing(dir) && !HasSubstring(p, "_inputs") && Stem(p) == s ==> |v| <= |p|)
  {
    var sorted := SortByLengthDesc(listing(dir));
    var d := LineYmlPaths(dir, listing);
    SortedMembers(listing(dir));
    PutEachKeys(sorted, KeepYml(), YmlKey(), SamePath(), Empty());
    KeysOfMembers(sorted, KeepYml(), YmlKey(), s);
    if s in d.vals {
      LineYmlPathOf(dir, listing, s);
    }
  }

  /** The path stored for a stem is a shortest listed one with that stem. */
  lemma LineYmlPathOf(dir: string, listing: string -> seq<string>, s: string)
    requires s in LineYmlPaths(dir, listing).vals
    ensures var v := LineYmlPaths(dir, listing).vals[s];
            && v in listing(dir) && !HasSubstring(v, "_inputs") && Stem(v) == s
            && forall p :: p in listing(dir) && !HasSubstring(p, "_inputs") && Stem(p) == s ==> |v| <= |p|
  {
    var sorted := SortByLengthDesc(listing(dir));
    var d := LineYmlPaths(dir, listing);
    SortedMembers(listing(dir));
    PutEachOrigin(sorted, KeepYml(), YmlKey(), SamePath(), Empty(), s);
    forall p | p in listing(dir) && !HasSubstring(p, "_inputs") && Stem(p) == s
      ensures |d.vals[s]| <= |p|
    {
      ShortestWins(listing(dir), KeepYml(), YmlKey(), SamePath(), Empty(), p);
    }
  }

  /** The fold over the lines: a namespace named on several lines collects
      the workflows of all of them. */
  function YmlOfLines(lines: seq<ConfigLine>, listing: string -> seq<string>,
                      all: Dict<string, Dict<string, string>>): Dict<string, Dict<string, string>>
    decreases |lines|
  {
    if lines == [] then all
    else
      var ns := lines[0].namespace;
      YmlOfLines(lines[1..], listing, Put(all, ns, Union(NsDict(all, ns), LineYmlPaths(lines[0].dir, listing))))
  }

  /** Reference for one namespace's merged workflows, on plain maps: the
      lines of that namespace in order, a later line's path winning a
      shared stem. */
  function NsMerge(lines: seq<ConfigLine>, listing: string -> seq<string>, ns: string): map<string, string>
    decreases |lines|
  {
    if lines == [] then map[]
    else
      (if lines[0].namespace == ns then LineYmlPaths(lines[0].dir, listing).vals else map[])
        + NsMerge(lines[1..], listing, ns)
  }

  /** The namespace's workflows so far (`yml_paths_all.get(ns, {})`). */
  function NsDict(all: Dict<string, Dict<string, string>>, ns: string): (r: Dict<string, string>)
    ensures r.vals == if ns in all.vals then all.vals[ns].vals else map[]
  {
    match Get<string, Dict<string, string>>(all, ns) case Some(d) => d case None => Empty()
  }

  /** A line's step of the fold adds its workflows to its namespace's... */
  lemma YmlStepHere(all: Dict<string, Dict<string, string>>, ns: string, line: Dict<string, string>)
    ensures var all' := Put(all, ns, Union(NsDict(all, ns), line));
            ns in all'.vals && all'.vals[ns].vals == NsDict(all, ns).vals + line.vals
  {
  }

  /** ... and leaves every other namespace alone. */
  lemma YmlStepElsewhere(all: Dict<string, Dict<string, string>>, ns0: string, u: Dict<string, string>, ns: string)
    requires ns != ns0
    ensures var all' := Put(all, ns0, u);
            (ns in all'.vals <==> ns in all.vals) && (ns in all.vals ==> all'.vals[ns] == all.vals[ns])
  {
  }

  /** The fold over the lines agrees with the reference: a namespace is
      present when it was before or some line names it, and its workflows
      are the earlier ones overridden by the reference merge. */
  lemma {:induction false} YmlOfLinesMerge(lines: seq<ConfigLine>, listing: string -> seq<string>,
                                           all: Dict<string, Dict<string, string>>, ns: string)
    ensures var r := YmlOfLines(lines, listing, all);
            && (ns in r.vals <==> ns in all.vals || exists l :: l in lines && l.namespace == ns)
            && (ns in r.vals ==> r.vals[ns].vals == NsDict(all, ns).vals + NsMerge(lines, listing, ns))
    decreases |lines|
  {
    if lines != [] {
      var l0 := lines[0];
      var line := LineYmlPaths(l0.dir, listing);
      var all' := Put(all, l0.namespace, Union(NsDict(all, l0.namespace), line));
      assert YmlOfLines(lines, listing, all) == YmlOfLines(lines[1..], listing, all');
      YmlOfLinesMerge(lines[1..], listing, all', ns);
      assert forall l :: l in lines <==> l == l0 || l in lines[1..];
      var base := NsDict(all, ns).vals;
      var rest := NsMerge(lines[1..], listing, ns);
      if l0.namespace == ns {
        YmlStepHere(all, ns, line);
        assert NsMerge(lines, listing, ns) == line.vals + rest;
        MapUnionAssoc(base, line.vals, rest);
      } else {
        YmlStepElsewhere(all, l0.namespace, Union(NsDict(all, l0.namespace), line), ns);
        assert NsMerge(lines, listing, ns) == map[] + rest;
        MapUnionEmpty(rest);
      }
    }
  }

  /** The reference merge holds the stems of every line of the namespace. */
  lemma {:induction false} NsMergeStems(lines: seq<ConfigLine>, listing: string -> seq<string>, ns: string, s: string)
    ensures s in NsMerge(lines, listing, ns)
            <==> exists l :: l in lines && l.namespace == ns && s in LineYmlPaths(l.dir, listing).vals
    decreases |lines|
  {
    if lines != [] {
      NsMergeStems(lines[1..], listing, ns, s);
      assert forall l :: l in lines <==> l == lines[0] || l in lines[1..];
    }
  }

  /** On a shared stem the last line of the namespace that has it wins. */
  lemma {:induction false} NsMergeLast(lines: seq<ConfigLine>, listing: string -> seq<string>, ns: string,
                                       j: int, s: string)
    requires 0 <= j < |lines| && lines[j].namespace == ns && s in LineYmlPaths(lines[j].dir, listing).vals
    requires forall m :: j < m < |lines| && lines[m].namespace == ns ==> s !in LineYmlPaths(lines[m].dir, listing).vals
    ensures s in NsMerge(lines, listing, ns)
    ensures NsMerge(lines, listing, ns)[s] == LineYmlPaths(lines[j].dir, listing).vals[s]
    decreases |lines|
  {
    var rest := lines[1..];
    if j == 0 {
      if s in NsMerge(rest, listing, ns) {
        NsMergeStems(rest, listing, ns, s);
        assert false;
      }
    } else {
      forall m | j - 1 < m < |rest| && rest[m].namespace == ns
        ensures s !in LineYmlPaths(rest[m].dir, listing).vals
      {
        assert rest[m] == lines[m + 1];
      }
      NsMergeLast(rest, listing, ns, j - 1, s);
    }
  }

  /** Every merged workflow is a listed path of a line of its namespace,
      keyed by its stem, and not a generated inputs file. */
  lemma {:induction false} NsMergeOrigin(lines: seq<ConfigLine>, listing: string -> seq<string>, ns: string, s: string)
    requires s in NsMerge(lines, listing, ns)
    ensures var v := NsMerge(lines, listing, ns)[s];
            && !HasSubstring(v, "_inputs") && Stem(v) == s
            && exists l :: l in lines && l.namespace == ns && v in listing(l.dir)
    decreases |lines|
  {
    var v := NsMerge(lines, listing, ns)[s];
    var rest := lines[1..];
    if s in NsMerge(rest, listing, ns) {
      NsMergeOrigin(rest, listing, ns, s);
      assert forall l :: l in rest ==> l in lines;
    } else {
      LineYmlPathsSpec(lines[0].dir, listing, s);
    }
  }

  /** `get_yml_paths`: one entry per namespace some line names, and a
      warning for exactly the directories with no files. */
  function GetYmlPaths(lines: seq<ConfigLine>, listing: string -> seq<string>)
    : (r: Discovery<Dict<string, Dict<string, string>>>)
    ensures r.found.vals.Keys == set l | l in lines :: l.namespace
    ensures forall d :: d in r.warnings <==> exists l :: l in lines && l.dir == d && listing(d) == []
  {
    YmlOfLinesNamespaces(lines, listing, Empty());
    Discovery(YmlOfLines(lines, listing, Empty()), EmptyDirs(lines, listing))
  }

  /** The fold adds exactly the namespaces the lines name. */
  lemma {:induction false} YmlOfLinesNamespaces(lines: seq<ConfigLine>, listing: string -> seq<string>,
                                                all: Dict<string, Dict<string, string>>)
    ensures YmlOfLines(lines, listing, all).vals.Keys == all.vals.Keys + set l | l in lines :: l.namespace
    decreases |lines|
  {
    if lines != [] {
      var ns := lines[0].namespace;
      var all' := Put(all, ns, Union(NsDict(all, ns), LineYmlPaths(lines[0].dir, listing)));
      YmlOfLinesNamespaces(lines[1..], listing, all');
      MembersOfTail(lines);
    }
  }

  /** The namespaces the lines name, in line order, repeats included. */
  function LineNamespaces(lines: seq<ConfigLine>): seq<string>
    decreases |lines|
  {
    if lines == [] then [] else [lines[0].namespace] + LineNamespaces(lines[1..])
  }

  /** The stems the lines of namespace `ns` store, line by line, each line's
      in its own order; repeats included. */
  function NsStems(lines: seq<ConfigLine>, listing: string -> seq<string>, ns: string): seq<string>
    decreases |lines|
  {
    if lines == [] then []
    else (if lines[0].namespace == ns then LineYmlPaths(lines[0].dir, listing).keys else [])
         + NsStems(lines[1..], listing, ns)
  }

  /** One line's stems come in the order of the first kept path with each,
      paths longest first. */
  lemma LineYmlPathsOrder(dir: string, listing: string -> seq<string>)
    ensures LineYmlPaths(dir, listing).keys == Fresh(KeptKeys(SortByLengthDesc(listing(dir)), KeepYml(), YmlKey()), {})
  {
    PutEachOrderFromEmpty(SortByLengthDesc(listing(dir)), KeepYml(), YmlKey(), SamePath());
  }

  /** The namespaces follow the earlier ones in the order of the first line
      naming each. */
  lemma {:induction false} YmlNamespaceOrder(lines: seq<ConfigLine>, listing: string -> seq<string>,
                                             all: Dict<string, Dict<string, string>>)
    ensures YmlOfLines(lines, listing, all).keys == all.keys + Fresh(LineNamespaces(lines), all.vals.Keys)
    decreases |lines|
  {
    if lines != [] {
      var ns := lines[0].namespace;
      var all' := Put(all, ns, Union(NsDict(all, ns), LineYmlPaths(lines[0].dir, listing)));
      var rest := LineNamespaces(lines[1..]);
      YmlNamespaceOrder(lines[1..], listing, all');
      assert LineNamespaces(lines)[0] == ns && LineNamespaces(lines)[1..] == rest;
      if ns !in all.vals {
        assert all'.vals.Keys == all.vals.Keys + {ns};
        ConcatAssoc(all.keys, [ns], Fresh(rest, all'.vals.Keys));
      }
    }
  }

  /** Within a namespace, the earlier stems keep their places and each new
      stem follows where the namespace's lines first store it. */
  lemma {:induction false} YmlStemOrder(lines: seq<ConfigLine>, listing: string -> seq<string>,
                                        all: Dict<string, Dict<string, string>>, ns: string)
    ensures NsDict(YmlOfLines(lines, listing, all), ns).keys
            == NsDict(all, ns).keys + Fresh(NsStems(lines, listing, ns), NsDict(all, ns).vals.Keys)
    decreases |lines|
  {
    var base := NsDict(all, ns);
    if lines == [] {
      AppendEmpty(base.keys);
    } else {
      var l0 := lines[0];
      var line := LineYmlPaths(l0.dir, listing);
      var all' := Put(all, l0.namespace, Union(NsDict(all, l0.namespace), line));
      var rest := NsStems(lines[1..], listing, ns);
      assert YmlOfLines(lines, listing, all) == YmlOfLines(lines[1..], listing, all');
      YmlStemOrder(lines[1..], listing, all', ns);
      if l0.namespace == ns {
        var u := Union(base, line);
        assert NsDict(all', ns) == u;
        assert NsStems(lines, listing, ns) == line.keys + rest;
        assert u.vals.Keys == base.vals.Keys + set x | x in line.keys;
        FreshAppend(line.keys, rest, base.vals.Keys);
        ConcatAssoc(base.keys, Fresh(line.keys, base.vals.Keys), Fresh(rest, u.vals.Keys));
      } else {
        YmlStepElsewhere(all, l0.namespace, Union(NsDict(all, l0.namespace), line), ns);
        assert NsDict(all', ns) == base;
        assert NsStems(lines, listing, ns) == [] + rest == rest;
      }
    }
  }

  /** `get_yml_paths` lists the namespaces in the order of the first line
      naming each, and a namespace's stems in the order its lines first
      store them, each line's paths longest first. */
  lemma GetYmlPathsOrder(lines: seq<ConfigLine>, listing: string -> seq<string>, ns: string)
    ensures var found := GetYmlPaths(lines, listing).found;
            && found.keys == Fresh(LineNamespaces(lines), {})
            && NsDict(found, ns).keys == Fresh(NsStems(lines, listing, ns), {})
  {
    var e: Dict<string, Dict<string, string>> := Empty();
    YmlNamespaceOrder(lines, listing, e);
    YmlStemOrder(lines, listing, e, ns);
    FreshFromEmpty<string, Dict<string, string>>(LineNamespaces(lines));
    assert NsDict(e, ns) == Empty();
    FreshFromEmpty<string, string>(NsStems(lines, listing, ns));
  }

  /** `get_yml_paths`: a namespace is present exactly when a line names
      it; it holds the stems of all of its lines; and each workflow is a
      listed path of one of its lines, keyed by its stem and not a
      generated inputs file. */
  lemma GetYmlPathsSound(lines: seq<ConfigLine>, listing: string -> seq<string>, ns: string, s: string)
    ensures var found := GetYmlPaths(lines, listing).found;
            && (ns in found.vals <==> exists l :: l in lines && l.namespace == ns)
            && (ns in found.vals ==>
                  (s in found.vals[ns].vals
                   <==> exists l :: l in lines && l.namespace == ns && s in LineYmlPaths(l.dir, listing).vals))
            && (ns in found.vals && s in found.vals[ns].vals ==>
                  var v := found.vals[ns].vals[s];
                  && !HasSubstring(v, "_inputs") && Stem(v) == s
                  && exists l :: l in lines && l.namespace == ns && v in listing(l.dir))
  {
    var found := GetYmlPaths(lines, listing).found;
    YmlOfLinesMerge(lines, listing, Empty(), ns);
    if ns in found.vals {
      MapUnionEmpty(NsMerge(lines, listing, ns));
      NsMergeStems(lines, listing, ns, s);
      if s in found.vals[ns].vals {
        NsMergeOrigin(lines, listing, ns, s);
      }
    }
  }

  /** A namespace split over several lines: on a shared stem the path of
      the last line having it wins. */
  lemma GetYmlPathsLastLine(lines: seq<ConfigLine>, listing: string -> seq<string>, j: int, s: string)
    requires 0 <= j < |lines| && s in LineYmlPaths(lines[j].dir, listing).vals
    requires forall m :: j < m < |lines| && lines[m].namespace == lines[j].namespace
                         ==> s !in LineYmlPaths(lines[m].dir, listing).vals
    ensures var found := GetYmlPaths(lines, listing).found;
            var ns := lines[j].namespace;
            && ns in found.vals && s in found.vals[ns].vals
            && found.vals[ns].vals[s] == LineYmlPaths(lines[j].dir, listing).vals[s]
  {
    var ns := lines[j].namespace;
    assert lines[j] in lines;
    YmlOfLinesMerge(lines, listing, Empty(), ns);
    MapUnionEmpty(NsMerge(lines, listing, ns));
    NsMergeLast(lines, listing, ns, j, s);
  }

  /** `yaml_stems`: the workflow stems of every namespace, namespace by
      namespace; a stem is listed exactly when some namespace has it. */
  function YmlStems(all: Dict<string, Dict<string, string>>): (r: seq<string>)
    ensures forall s :: s in r <==> exists ns :: ns in all.vals && s in all.vals[ns].vals
  {
    var r := Flatten(all, 0);
    assert forall s :: s in r <==> exists ns :: ns in all.vals && s in all.vals[ns].vals by {
      forall s ensures s in r <==> exists ns :: ns in all.vals && s in all.vals[ns].vals {
        FlattenMembers(all, 0, s);
        if exists ns :: ns in all.vals && s in all.vals[ns].vals {
          var ns :| ns in all.vals && s in all.vals[ns].vals;
          var i :| 0 <= i < |all.keys| && all.keys[i] == ns;
        }
      }
    }
    r
  }

  function Flatten(all: Dict<string, Dict<string, string>>, from: nat): seq<string>
    decreases |all.keys| - from
  {
    if from >= |all.keys| then [] else all.vals[all.keys[from]].keys + Flatten(all, from + 1)
  }

  /** The flattened stems are those of every namespace. */
  lemma {:induction false} FlattenMembers(all: Dict<string, Dict<string, string>>, from: nat, s: string)
    ensures s in Flatten(all, from)
            <==> exists i :: from <= i < |all.keys| && s in all.vals[all.keys[i]].vals
    decreases |all.keys| - from
  {
    if from < |all.keys| {
      FlattenMembers(all, from + 1, s);
      assert all.keys[from] in all.vals;
    }
  }
}
