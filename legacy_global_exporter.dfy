/** The ES5 `GlobalExporter` of the package root, used by the Babel-based
    plugin entry point. It emits ES-module statements only, always emits a
    default statement (even for an `undefined` default), and appends the
    block to the source without a newline. */
module Legacy {
  import opened JsText
  import opened ExportLayout
  import ExportersEs6
  import ExportersBase

  /** `_getDefaultExport()`: `'export default ' + this.defaultExport`, with no
      truthiness test, so `undefined` is written out as `undefined`. */
  function DefaultExport(defaultExport: Option<string>): (r: string)
    ensures "export default " <= r
    ensures r[|"export default "|..] == if defaultExport.Some? then defaultExport.value else "undefined"
  {
    "export default " + (if defaultExport.Some? then defaultExport.value else "undefined")
  }

  /** The array `_getExports` joins: the named statements, then the default
      statement, pushed unconditionally. */
  function Statements(defaultExport: Option<string>, exports: seq<string>): (r: seq<string>)
    ensures |r| == |exports| + 1
    ensures forall i :: 0 <= i < |exports| ==> r[i] == "export " + exports[i]
    ensures r[|exports|] == DefaultExport(defaultExport)
  {
    ExportersEs6.NamedExports(exports) + [DefaultExport(defaultExport)]
  }

  /** `_getExports()`: the statements joined by `;\n` and terminated by `;`. */
  function ExportsOf(defaultExport: Option<string>, exports: seq<string>): (block: string)
    ensures EndsWith(block, DefaultExport(defaultExport) + ";")
  {
    BlockEndsWithLast(ExportersEs6.NamedExports(exports), DefaultExport(defaultExport));
    Block(Statements(defaultExport, exports))
  }

  /** The block line by line: one `export n;` per name in order, then the
      default statement, whatever the default is. */
  lemma ExportsLayout(defaultExport: Option<string>, exports: seq<string>)
    ensures ExportsOf(defaultExport, exports) + "\n"
            == Lines(ExportersEs6.NamedExports(exports)) + (DefaultExport(defaultExport) + ";\n")
  {
    var named := ExportersEs6.NamedExports(exports);
    BlockIsLines(named + [DefaultExport(defaultExport)]);
    LinesAppend(named, [DefaultExport(defaultExport)]);
    assert Lines([DefaultExport(defaultExport)]) == DefaultExport(defaultExport) + ";\n" + Lines([]);
  }

  /** An exporter built with named exports only still exports a default:
      `undefined` becomes `export default undefined;` and `''` becomes the
      statement `export default ;`, which is not valid JavaScript. */
  lemma FalsyDefaultStillExported(exports: seq<string>)
    ensures EndsWith(ExportsOf(None, exports), "export default undefined;")
    ensures EndsWith(ExportsOf(Some(""), exports), "export default ;")
  {
    assert DefaultExport(None) + ";" == "export default undefined;";
    assert DefaultExport(Some("")) + ";" == "export default ;";
  }

  /** `processSourceCode(sourceCode)`: the source, a `;` unless it already
      passes the semicolon test, and the block right after it. */
  function ProcessedOf(defaultExport: Option<string>, exports: seq<string>, source: string): (out: string)
    ensures source <= out
    ensures EndsWith(out, ExportsOf(defaultExport, exports))
    ensures |out| == |source| + (if EndsWithSemicolon(source) then 0 else 1) + |ExportsOf(defaultExport, exports)|
    ensures !EndsWithSemicolon(source) ==> out[|source|] == ';'
    ensures out[|out| - 1] == ';'
  {
    var block := ExportsOf(defaultExport, exports);
    var out := SemicolonTerminated(source) + block;
    assert out[|out| - |block|..] == block;
    out
  }

  /** Supplying the missing semicolon beforehand changes nothing. */
  lemma ProcessedAbsorbsSemicolon(defaultExport: Option<string>, exports: seq<string>, source: string)
    requires !EndsWithSemicolon(source)
    ensures ProcessedOf(defaultExport, exports, source + ";") == ProcessedOf(defaultExport, exports, source)
  {
    SemicolonAbsorbed(source);
  }

  /** With a truthy default the legacy block is the modular ES-module block,
      and the two outputs differ only in the newline the modular version
      puts between the source and the block. */
  lemma AgreesWithModularExceptNewline(defaultExport: Option<string>, exports: seq<string>, source: string)
    requires Truthy(defaultExport)
    ensures ExportersBase.ProcessedOf(ExportersBase.RenderersOf(Es6, defaultExport, exports), source)
            == Success(SemicolonTerminated(source) + "\n" + ExportsOf(defaultExport, exports))
    ensures ProcessedOf(defaultExport, exports, source) == SemicolonTerminated(source) + ExportsOf(defaultExport, exports)
  {
    var block := ExportsOf(defaultExport, exports);
    assert PushDefault(ExportersEs6.NamedExports(exports), ExportersEs6.DefaultExport(defaultExport))
        == Statements(defaultExport, exports);
    ExportersBase.ProcessedIsAppended(ExportersBase.RenderersOf(Es6, defaultExport, exports), source, block);
  }

  /** With no newline between them, the block continues the last line of the
      source: a single-line source and default give single-line output. */
  lemma SingleLineStaysSingleLine(name: string, source: string)
    requires '\n' !in source && '\n' !in name
    ensures '\n' !in ProcessedOf(Some(name), [], source)
  {
    var block := ExportsOf(Some(name), []);
    assert Statements(Some(name), []) == [DefaultExport(Some(name))];
    assert block == ("export default " + name) + ";";
    assert '\n' !in block;
    var terminated := SemicolonTerminated(source);
    assert terminated == source || terminated == source + ";";
    assert '\n' !in terminated;
    assert ProcessedOf(Some(name), [], source) == terminated + block;
  }

  /** `var x = 1 // one` fails the semicolon test. */
  lemma CommentedSourceUnterminated()
    ensures !EndsWithSemicolon("var x = 1 // one")
  {
    var s := "var x = 1 // one";
    EndsWithSemicolonIsLastNonWhitespace(s);
    assert TrimEnd(s) == s;
  }

  /** A source ending in a line comment swallows the exports: they land
      after `//` on the same line.
      The literals are pinned by `requires` rather than written inline, which
      keeps the string reasoning small. */
  lemma LineCommentSwallowsExports(source: string, name: string)
    requires source == "var x = 1 // one" && name == "Foo"
    ensures ProcessedOf(Some(name), [], source) == "var x = 1 // one" + ";" + "export default Foo;"
  {
    CommentedSourceUnterminated();
    assert Statements(Some(name), []) == ["export default " + name];
    assert ExportsOf(Some(name), []) == "export default " + name + ";";
    assert "export default " + name + ";" == "export default Foo;";
  }

  /** A legacy exporter object; its fields are only read after construction. */
  class GlobalExporter {
    var defaultExport: Option<string>
    var exports: seq<string>

    /** The construction invariant: a truthy default or a named export. */
    ghost predicate Valid()
      reads this
    {
      Admissible(defaultExport, exports)
    }

    constructor (defaultExport: Option<string>, exports: seq<string>)
      requires Admissible(defaultExport, exports)
      ensures Valid()
      ensures this.defaultExport == defaultExport && this.exports == exports
    {
      this.defaultExport := defaultExport;
      this.exports := exports;
    }

    /** `new GlobalExporter(defaultExport, exports)`: `exports || []`, then the
        same check and error as the later versions. */
    static method Create(defaultExport: Option<string>, exports: Option<seq<string>>)
      returns (r: Result<GlobalExporter, Thrown>)
      ensures r.Failure? <==> !Admissible(defaultExport, ExportsOrEmpty(exports))
      ensures r.Failure? ==> r.error == Error(ConstructionMessage)
      ensures r.Success? ==> fresh(r.value) && r.value.Valid()
      ensures r.Success? ==> r.value.defaultExport == defaultExport
      ensures r.Success? ==> r.value.exports == ExportsOrEmpty(exports)
    {
      var names := if exports.Some? then exports.value else [];
      if !(Truthy(defaultExport) || |names| > 0) {
        return Failure(Error(ConstructionMessage));
      }
      var exporter := new GlobalExporter(defaultExport, names);
      return Success(exporter);
    }

    /** `_getExports()`: pushes the default statement onto the named ones and
        joins them. */
    method GetExports() returns (block: string)
      ensures block == ExportsOf(defaultExport, exports)
      ensures EndsWith(block, DefaultExport(defaultExport) + ";")
    {
      var statements := ExportersEs6.NamedExports(exports);
      statements := statements + [DefaultExport(defaultExport)];
      block := Join(statements, ";\n") + ";";
    }

    /** `processSourceCode(sourceCode)`. */
    method ProcessSourceCode(sourceCode: string) returns (r: string)
      ensures r == ProcessedOf(defaultExport, exports, sourceCode)
    {
      var block := GetExports();
      var source := sourceCode;
      if !EndsWithSemicolon(source) {
        source := source + ";";
      }
      return source + block;
    }
  }
}
