/** The entry-file builders of the workspace
    (lib/workspace/code/entry-builders/node.js and python.js). Each collects
    the names of the application's code files and renders the `handler`
    module that re-exports every file's endpoint under the name the
    function entries point at. */
module EntryBuilders {
  import opened Strings
  import opened ChangeCase
  import opened Descriptors
  import CodeConfig
  import ComputeBuilder

  /** `{file, content}` */
  datatype EntryFile = EntryFile(file: string, content: string)

  const NodePrelude := "'use strict';\n\nmodule.exports = {\n    "
  const NodeSeparator := ",\n    "
  const NodeClosing := "\n};\n"

  /** One property of the node entry: `on<PascalCase(f)>: require('./src/<f>')`. */
  function NodeExport(cc: CaseFns, f: string): string {
    "on" + cc.pascal(f) + ": require('./src/" + f + "')"
  }

  function NodeExports(cc: CaseFns, files: seq<string>): (r: seq<string>)
    ensures |r| == |files|
    ensures forall i :: 0 <= i < |files| ==> r[i] == NodeExport(cc, files[i])
  {
    seq(|files|, i requires 0 <= i < |files| => NodeExport(cc, files[i]))
  }

  /** The node builder's `buildEntryFile()`. */
  function NodeEntry(cc: CaseFns, files: seq<string>): EntryFile {
    EntryFile("handler.js", NodePrelude + Join(NodeExports(cc, files), NodeSeparator) + NodeClosing)
  }

  /** The node entry is `handler.js`: the prelude, every file's export, and
      the closing brace. */
  lemma NodeEntryShape(cc: CaseFns, files: seq<string>)
    ensures NodeEntry(cc, files).file == "handler.js"
    ensures StartsWith(NodeEntry(cc, files).content, NodePrelude)
    ensures EndsWith(NodeEntry(cc, files).content, NodeClosing)
    ensures forall i :: 0 <= i < |files| ==> Contains(NodeEntry(cc, files).content, NodeExport(cc, files[i]))
  {
    var body := Join(NodeExports(cc, files), NodeSeparator);
    var content := NodePrelude + body + NodeClosing;
    assert content[..|NodePrelude|] == NodePrelude;
    assert content[|content| - |NodeClosing|..] == NodeClosing;
    forall i | 0 <= i < |files| ensures Contains(content, NodeExport(cc, files[i])) {
      JoinContainsPart(NodeExports(cc, files), NodeSeparator, i);
      ContainsInside(NodePrelude, body, NodeClosing);
      ContainsTrans(content, body, NodeExport(cc, files[i]));
    }
  }

  /** Adding a file adds its export at the end of the list: after a
      separator when there were exports already, in place of nothing
      otherwise. */
  lemma NodeEntryAddFile(cc: CaseFns, files: seq<string>, f: string)
    ensures NodeEntry(cc, files + [f]).content ==
      if files == [] then NodePrelude + NodeExport(cc, f) + NodeClosing
      else NodePrelude + Join(NodeExports(cc, files), NodeSeparator) + NodeSeparator + NodeExport(cc, f) + NodeClosing
  {
    NodeExportsSnoc(cc, files, f);
    JoinSnocInside(NodePrelude, NodeExports(cc, files), NodeExport(cc, f), NodeSeparator, NodeClosing);
  }

  /** One more file adds its export at the end of the exports. */
  lemma NodeExportsSnoc(cc: CaseFns, files: seq<string>, f: string)
    ensures NodeExports(cc, files + [f]) == NodeExports(cc, files) + [NodeExport(cc, f)]
  {
    var xs := NodeExports(cc, files + [f]);
    var ys := NodeExports(cc, files) + [NodeExport(cc, f)];
    assert |xs| == |ys|;
    forall i | 0 <= i < |xs| ensures xs[i] == ys[i] {
      if i < |files| { assert (files + [f])[i] == files[i]; }
    }
  }

  /** An entry with no files is the prelude and the closing brace. */
  lemma NodeEntryEmpty(cc: CaseFns)
    ensures NodeEntry(cc, []).content == NodePrelude + NodeClosing
  {
    assert NodeExports(cc, []) == [];
  }

  /** One line of the python entry: `from src.<f> import endpoint as <f>_endpoint`. */
  function PythonImport(f: string): string {
    "from src." + f + " import endpoint as " + f + "_endpoint"
  }

  function PythonImports(files: seq<string>): (r: seq<string>)
    ensures |r| == |files|
    ensures forall i :: 0 <= i < |files| ==> r[i] == PythonImport(files[i])
  {
    seq(|files|, i requires 0 <= i < |files| => PythonImport(files[i]))
  }

  /** The python builder's `buildEntryFile()`. */
  function PythonEntry(files: seq<string>): EntryFile {
    EntryFile("handler.py", Join(PythonImports(files), "\n") + "\n")
  }

  /** The python entry is `handler.py` and, read line by line, holds one
      import per file, in order, followed by the empty line after the final
      newline; with no files it is a lone newline. */
  lemma PythonEntryLines(files: seq<string>)
    requires forall i :: 0 <= i < |files| ==> FreeOf(files[i], LineTerminators)
    ensures PythonEntry(files).file == "handler.py"
    ensures files == [] ==> PythonEntry(files).content == "\n"
    ensures files != [] ==> Lines(PythonEntry(files).content) == PythonImports(files) + [""]
  {
    var imports := PythonImports(files);
    if files != [] {
      JoinSnoc(imports, "", "\n");
      assert Join(imports + [""], "\n") == Join(imports, "\n") + "\n" + "";
      forall p | p in imports + [""] ensures FreeOf(p, LineTerminators) {
        if p in imports {
          var i :| 0 <= i < |imports| && imports[i] == p;
          PythonImportFree(files[i]);
        }
      }
      assert '\n' in LineTerminators && "\n" == ['\n'];
      SplitJoin(imports + [""], '\n', LineTerminators);
      assert PythonEntry(files).content == Join(imports + [""], ['\n']);
    }
  }

  /** An import line of a one-line file name is itself one line. */
  lemma PythonImportFree(f: string)
    requires FreeOf(f, LineTerminators)
    ensures FreeOf(PythonImport(f), LineTerminators)
  {
    assert FreeOf("from src.", LineTerminators);
    assert FreeOf(" import endpoint as ", LineTerminators);
    assert FreeOf("_endpoint", LineTerminators);
    FreeOfConcat("from src.", f, LineTerminators);
    FreeOfConcat("from src." + f, " import endpoint as ", LineTerminators);
    FreeOfConcat("from src." + f + " import endpoint as ", f, LineTerminators);
    FreeOfConcat("from src." + f + " import endpoint as " + f, "_endpoint", LineTerminators);
  }

  /** An import line aliases its file's endpoint. */
  lemma PythonImportAlias(name: string)
    ensures Contains(PythonImport(name), " as " + name + "_endpoint")
  {
    var alias := " as " + name + "_endpoint";
    ContainsInside("from src." + name + " import endpoint", alias, "");
    assert "from src." + name + " import endpoint" + alias + "" == PythonImport(name);
  }

  /** The python entry holds the joined import lines. */
  lemma PythonEntryHoldsImports(files: seq<string>)
    ensures Contains(PythonEntry(files).content, Join(PythonImports(files), "\n"))
  {
    var body := Join(PythonImports(files), "\n");
    ContainsInside("", body, "\n");
    assert "" + body + "\n" == PythonEntry(files).content;
  }

  /** Every listed file's endpoint is aliased in the python entry. */
  lemma PythonEntryAliases(files: seq<string>, i: nat)
    requires i < |files|
    ensures Contains(PythonEntry(files).content, " as " + files[i] + "_endpoint")
  {
    var body := Join(PythonImports(files), "\n");
    JoinContainsPart(PythonImports(files), "\n", i);
    PythonEntryHoldsImports(files);
    PythonImportAlias(files[i]);
    ContainsTrans(PythonEntry(files).content, body, PythonImport(files[i]));
    ContainsTrans(PythonEntry(files).content, PythonImport(files[i]), " as " + files[i] + "_endpoint");
  }

  /** The python entry exports what the function entries name: a python
      compute whose code file is listed exports, under its handler's name,
      the endpoint of that file. */
  lemma PythonEntryServesHandler(cc: CaseFns, c: ComputeResource, files: seq<string>)
    requires CodeConfig.CreateCodeConfiguration(cc, c).Ok?
    requires CodeConfig.CreateCodeConfiguration(cc, c).value.language == CodeConfig.Python
    requires CodeConfig.CreateCodeConfiguration(cc, c).value.name in files
    ensures ComputeBuilder.HandlerFor(cc, c.id, c.runtime).Ok?
    ensures Contains(PythonEntry(files).content,
                     " as " + ComputeBuilder.HandlerFor(cc, c.id, c.runtime).value[|"handler."|..])
  {
    var name := cc.snake(c.id);
    assert CodeConfig.CreateCodeConfiguration(cc, c).value.name == name;
    ComputeBuilder.PythonHandler(cc, c.id, c.runtime);
    var i :| 0 <= i < |files| && files[i] == name;
    PythonEntryAliases(files, i);
    assert " as " + name + "_endpoint" == " as " + (name + "_endpoint");
  }

  /** `createNodeEntryBuilder()`: `files` is the builder's array. */
  class NodeEntryBuilder {
    const cc: CaseFns
    var files: seq<string>

    constructor(cc: CaseFns)
      ensures this.cc == cc && files == []
    {
      this.cc := cc;
      files := [];
    }

    /** `addFile(name)`: appended, duplicates kept. */
    method AddFile(name: string)
      modifies this
      ensures files == old(files) + [name]
    {
      files := files + [name];
    }

    /** `buildEntryFile()`: reads `files` and changes nothing, so building
        twice gives the same file. */
    method BuildEntryFile() returns (e: EntryFile)
      ensures e == NodeEntry(cc, files)
      ensures StartsWith(e.content, NodePrelude) && EndsWith(e.content, NodeClosing)
    {
      var exports: seq<string> := [];
      for i := 0 to |files|
        invariant exports == NodeExports(cc, files[..i])
      {
        assert NodeExports(cc, files[..i + 1]) == exports + [NodeExport(cc, files[i])];
        exports := exports + [NodeExport(cc, files[i])];
      }
      assert files[..|files|] == files;
      e := EntryFile("handler.js", NodePrelude + Join(exports, NodeSeparator) + NodeClosing);
      NodeEntryShape(cc, files);
    }
  }

  /** `createPythonEntryBuilder()` */
  class PythonEntryBuilder {
    var files: seq<string>

    constructor()
      ensures files == []
    {
      files := [];
    }

    /** `addFile(name)`: appended, duplicates kept. */
    method AddFile(name: string)
      modifies this
      ensures files == old(files) + [name]
    {
      files := files + [name];
    }

    /** `buildEntryFile()`: reads `files` and changes nothing. */
    method BuildEntryFile() returns (e: EntryFile)
      ensures e == PythonEntry(files)
      ensures e.file == "handler.py" && EndsWith(e.content, "\n")
    {
      var imports: seq<string> := [];
      for i := 0 to |files|
        invariant imports == PythonImports(files[..i])
      {
        assert PythonImports(files[..i + 1]) == imports + [PythonImport(files[i])];
        imports := imports + [PythonImport(files[i])];
      }
      assert files[..|files|] == files;
      e := EntryFile("handler.py", Join(imports, "\n") + "\n");
    }
  }
}
