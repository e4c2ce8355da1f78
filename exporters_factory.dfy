/** `exporterFactory(moduleType, ...args)`: picks the format subclass from
    the module type and forwards the remaining arguments to its constructor. */
module ExportersFactory {
  import opened JsText
  import opened ExportLayout
  import opened ExportersBase

  /** The class chosen for a module type: CommonJS exactly for the string
      `'cjs'` (strict equality), the ES-module class for anything else,
      including `'es2015'` and `undefined`; never the abstract base class. */
  function ExporterKind(moduleType: Option<string>): (k: Kind)
    ensures k == Cjs <==> moduleType == Some("cjs")
    ensures k != Base
  {
    if moduleType == Some("cjs") then Cjs else Es6
  }

  /** `exporterFactory(moduleType, defaultExport, exports)`: the construction
      error applies whatever the module type, and a created object carries the
      chosen class and the forwarded arguments. */
  method ExporterFactory(moduleType: Option<string>, defaultExport: Option<string>, exports: Option<seq<string>>)
    returns (r: Result<GlobalExporter, Thrown>)
    ensures r.Failure? <==> !Admissible(defaultExport, ExportsOrEmpty(exports))
    ensures r.Failure? ==> r.error == Error(ConstructionMessage)
    ensures r.Success? ==> fresh(r.value) && r.value.Valid() && r.value.kind == ExporterKind(moduleType)
    ensures r.Success? ==> r.value.defaultExport == defaultExport
    ensures r.Success? ==> r.value.exports == ExportsOrEmpty(exports)
  {
    var kind := Es6;
    if moduleType == Some("cjs") {
      kind := Cjs;
    }
    r := GlobalExporter.Create(kind, defaultExport, exports);
  }

  /** Every object the factory can create renders: its block exists, holds
      its named statements in order and its default statement (when truthy)
      last, and is never the empty block `;`. */
  lemma FactoryExportersRender(moduleType: Option<string>, defaultExport: Option<string>, exports: seq<string>)
    requires Admissible(defaultExport, exports)
    ensures var r := RenderersOf(ExporterKind(moduleType), defaultExport, exports);
            ExportsOf(r).Success? && ExportsOf(r).value != ";"
            && ExportsOf(r).value + "\n"
               == Lines(r.named.value.items)
                  + (if Truthy(defaultExport) then r.default.value.value + ";\n" else "")
  {
    var r := RenderersOf(ExporterKind(moduleType), defaultExport, exports);
    ExportsOrder(r);
    var items := r.named.value.items;
    if items != [] {
      assert Lines(items)[..|items[0]|] == items[0];
    }
  }
}
