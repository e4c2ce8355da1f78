/** The CommonJS renderers of `CjsGlobalExporter`: `exports.n = n` for each
    named export and, for a truthy default, a template that first marks the
    module with `__esModule` and then assigns `exports['default']`. */
module ExportersCjs {
  import opened JsText
  import opened ExportLayout

  /** The default-export template opens with a newline and the call that
      marks the module with `__esModule`, up to its one property ... */
  const MarkerOpen := "\n        Object.defineProperty(exports, '__esModule', {\n          "

  /** ... the property of the descriptor object ... */
  const MarkerProperty := "value: true"

  /** ... and the closing brace, then the indentation of the assignment
      line ... */
  const MarkerEnd := "\n        });\n        "

  /** ... whose left-hand side is the `default` property of `exports`. */
  const AssignTarget := "exports['default'] "

  const MarkerClose := MarkerEnd + AssignTarget

  /** The template up to the assignment. */
  const DefaultHead := MarkerOpen + MarkerProperty + MarkerClose

  /** What follows the name in the template: a newline and the indentation
      of the closing backtick. */
  const DefaultTail := "\n      "

  /** `this.exports.map(n => `exports.${n} = ${n}`)`. */
  function NamedExports(names: seq<string>): (r: seq<string>)
    ensures |r| == |names|
    ensures forall i :: 0 <= i < |names| ==> r[i] == "exports." + names[i] + " = " + names[i]
  {
    if names == [] then [] else ["exports." + names[0] + " = " + names[0]] + NamedExports(names[1..])
  }

  /** The template for a truthy default, `undefined` otherwise, so no
      `__esModule` marker is emitted without a default. */
  function DefaultExport(defaultExport: Option<string>): (r: Option<string>)
    ensures r.Some? <==> Truthy(defaultExport)
    ensures r.Some? ==> Truthy(r) && r.value == DefaultHead + ("= " + defaultExport.value + DefaultTail)
  {
    if Truthy(defaultExport) then Some(DefaultHead + ("= " + defaultExport.value + DefaultTail)) else None
  }

  /** The template ends in whitespace after `exports['default'] = d`, so a
      block with a default ends in `= d`, a newline, the closing indentation
      (`DefaultTail`) and then the final `;`. */
  lemma DefaultBlockEnd(defaultExport: Option<string>, exports: seq<string>)
    requires Truthy(defaultExport)
    ensures EndsWith(Block(PushDefault(NamedExports(exports), DefaultExport(defaultExport))),
                     "= " + defaultExport.value + DefaultTail + ";")
  {
    var assignment := "= " + defaultExport.value + DefaultTail;
    BlockEndsWithLast(NamedExports(exports), DefaultHead + assignment);
    EndsWithRegrouped(DefaultHead, assignment, ";");
    EndsWithTransitive(Block(NamedExports(exports) + [DefaultHead + assignment]),
                       (DefaultHead + assignment) + ";", assignment + ";");
  }

  /** The closing of the descriptor object: a newline, indentation, `}`. */
  lemma MarkerCloseOpensWithBrace()
    ensures |MarkerClose| >= 10 && MarkerClose[..10] == "\n        }"
  {
  }

  /** The descriptor object of the `__esModule` marker is well formed: its
      property `value: true` (no `;`) is followed by whitespace and the
      closing brace. */
  lemma MarkerObjectWellFormed(defaultExport: Option<string>)
    requires Truthy(defaultExport)
    ensures MarkerProperty[|MarkerProperty| - 1] != ';'
    ensures var t := DefaultExport(defaultExport).value;
            var k := |MarkerOpen|;
            |t| >= k + |MarkerProperty| + 10
            && t[k..k + |MarkerProperty| + 10] == MarkerProperty + "\n        }"
  {
    var rest := MarkerClose + ("= " + defaultExport.value + DefaultTail);
    assert DefaultExport(defaultExport).value == MarkerOpen + (MarkerProperty + rest);
    MarkerCloseOpensWithBrace();
    assert rest[..10] == MarkerClose[..10];
    SliceAcross(MarkerOpen, MarkerProperty, rest, 10);
  }

  /** Without a default the block is the named statements alone: one
      `exports.n = n` per name, in order, each terminated by `;\n` in the
      block extended by a newline. */
  lemma NamedOnlyBlock(defaultExport: Option<string>, exports: seq<string>)
    requires !Truthy(defaultExport) && exports != []
    ensures Block(PushDefault(NamedExports(exports), DefaultExport(defaultExport))) + "\n"
            == Lines(NamedExports(exports))
  {
    BlockIsLines(NamedExports(exports));
  }
}
