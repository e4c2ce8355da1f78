/** The ES-module renderers of `Es6GlobalExporter`: `export name` for each
    named export and `export default name` for a truthy default. */
module ExportersEs6 {
  import opened JsText
  import opened ExportLayout

  /** `this.exports.map(n => `export ${n}`)`: a fresh array, one statement
      per name, in the same order. */
  function NamedExports(names: seq<string>): (r: seq<string>)
    ensures |r| == |names|
    ensures forall i :: 0 <= i < |names| ==> r[i] == "export " + names[i]
  {
    if names == [] then [] else ["export " + names[0]] + NamedExports(names[1..])
  }

  /** `export default ${d}` when the default is truthy, `undefined` otherwise;
      a rendered statement is itself truthy, so the base class always pushes it. */
  function DefaultExport(defaultExport: Option<string>): (r: Option<string>)
    ensures r.Some? <==> Truthy(defaultExport)
    ensures r.Some? ==> Truthy(r) && r.value == "export default " + defaultExport.value
  {
    if Truthy(defaultExport) then Some("export default " + defaultExport.value) else None
  }

  /** The ES-module block of a valid exporter, line by line: `export n;` for
      every named export in order, then `export default d;` when the default
      is truthy. */
  lemma BlockLayout(defaultExport: Option<string>, exports: seq<string>)
    requires Admissible(defaultExport, exports)
    ensures Block(PushDefault(NamedExports(exports), DefaultExport(defaultExport))) + "\n"
            == Lines(NamedExports(exports))
               + (if Truthy(defaultExport) then "export default " + defaultExport.value + ";\n" else "")
  {
    PushDefaultLayout(NamedExports(exports), DefaultExport(defaultExport));
  }

  /** With a default and no named exports the block is exactly
      `export default d;`. */
  lemma DefaultOnlyBlock(defaultExport: Option<string>)
    requires Truthy(defaultExport)
    ensures Block(PushDefault(NamedExports([]), DefaultExport(defaultExport)))
            == "export default " + defaultExport.value + ";"
  {
    assert PushDefault(NamedExports([]), DefaultExport(defaultExport))
        == ["export default " + defaultExport.value];
  }
}
