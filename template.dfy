/** lib/template.js: the older generator of the node `handler.js` entry,
    driven by handler records instead of an entry builder. */
module Template {
  import opened Strings
  import opened ChangeCase
  import opened EntryBuilders

  /** The fields of a handler record that `generateEntry` reads. */
  datatype Handler = Handler(id: string, file: string)

  /** `on<PascalCase(h.id)>: require('./src/<h.file>')` */
  function HandlerExport(cc: CaseFns, h: Handler): string {
    "on" + cc.pascal(h.id) + ": require('./src/" + h.file + "')"
  }

  function HandlerExports(cc: CaseFns, handlers: seq<Handler>): (r: seq<string>)
    ensures |r| == |handlers|
    ensures forall i :: 0 <= i < |handlers| ==> r[i] == HandlerExport(cc, handlers[i])
  {
    seq(|handlers|, i requires 0 <= i < |handlers| => HandlerExport(cc, handlers[i]))
  }

  /** `generateEntry(handlers)` */
  function GenerateEntry(cc: CaseFns, handlers: seq<Handler>): string {
    NodePrelude + Join(HandlerExports(cc, handlers), NodeSeparator) + NodeClosing
  }

  /** The generated entry opens with the prelude, closes the object, and
      holds one export per handler; with no handlers it is just the prelude
      and the closing. */
  lemma GenerateEntryShape(cc: CaseFns, handlers: seq<Handler>)
    ensures StartsWith(GenerateEntry(cc, handlers), NodePrelude)
    ensures EndsWith(GenerateEntry(cc, handlers), NodeClosing)
    ensures forall i :: 0 <= i < |handlers| ==> Contains(GenerateEntry(cc, handlers), HandlerExport(cc, handlers[i]))
    ensures handlers == [] ==> GenerateEntry(cc, handlers) == NodePrelude + NodeClosing
  {
    var body := Join(HandlerExports(cc, handlers), NodeSeparator);
    var content := NodePrelude + body + NodeClosing;
    assert content[..|NodePrelude|] == NodePrelude;
    assert content[|content| - |NodeClosing|..] == NodeClosing;
    forall i | 0 <= i < |handlers| ensures Contains(content, HandlerExport(cc, handlers[i])) {
      JoinContainsPart(HandlerExports(cc, handlers), NodeSeparator, i);
      ContainsInside(NodePrelude, body, NodeClosing);
      ContainsTrans(content, body, HandlerExport(cc, handlers[i]));
    }
    if handlers == [] {
      assert HandlerExports(cc, handlers) == [];
    }
  }

  /** Exports are separated, in order: one more handler adds its export
      after a separator, at the end of the list. */
  lemma GenerateEntryAddHandler(cc: CaseFns, handlers: seq<Handler>, h: Handler)
    ensures GenerateEntry(cc, handlers + [h]) ==
      if handlers == [] then NodePrelude + HandlerExport(cc, h) + NodeClosing
      else NodePrelude + Join(HandlerExports(cc, handlers), NodeSeparator) + NodeSeparator
           + HandlerExport(cc, h) + NodeClosing
  {
    var xs := HandlerExports(cc, handlers + [h]);
    assert xs == HandlerExports(cc, handlers) + [HandlerExport(cc, h)] by {
      forall i | 0 <= i < |handlers| ensures xs[i] == HandlerExport(cc, handlers[i]) {
        assert (handlers + [h])[i] == handlers[i];
      }
    }
    JoinSnocInside(NodePrelude, HandlerExports(cc, handlers), HandlerExport(cc, h), NodeSeparator, NodeClosing);
  }

  /** The old generator and the node entry builder write the same file when
      each handler's id and file are the name the builder was given. */
  lemma GenerateEntryMatchesBuilder(cc: CaseFns, handlers: seq<Handler>, files: seq<string>)
    requires |handlers| == |files|
    requires forall i :: 0 <= i < |files| ==> handlers[i] == Handler(files[i], files[i])
    ensures GenerateEntry(cc, handlers) == NodeEntry(cc, files).content
  {
    assert HandlerExports(cc, handlers) == NodeExports(cc, files);
  }
}
