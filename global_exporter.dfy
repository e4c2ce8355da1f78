/** The single-file exporter module, the one the Broccoli plugin imports:
    its own `BaseGlobalExporter`, `Es6GlobalExporter`, `CjsGlobalExporter`
    and `getExporter`. It differs from the modular version in three places:
    the base renderers return `undefined` instead of throwing, `getExports`
    has no array check, and the CommonJS templates end their statements with
    `;` (the default template also writes `value: true;`). */
module Monolithic {
  import opened JsText
  import opened ExportLayout
  import ExportersEs6
  import ExportersCjs
  import ExportersBase
  import ExportersFactory

  /** What V8 throws for `exports.push(...)` and `exports.join(...)` when
      `exports` is `undefined`. */
  const PushOnUndefinedMessage := "Cannot read properties of undefined (reading 'push')"
  const JoinOnUndefinedMessage := "Cannot read properties of undefined (reading 'join')"

  /** The property of this module's `__esModule` descriptor object. */
  const CjsMarkerProperty := "value: true;"

  /** The default-export template of this module up to the assignment: the
      modular template's lines around a different property. */
  const CjsDefaultHead := ExportersCjs.MarkerOpen + CjsMarkerProperty + ExportersCjs.MarkerClose

  /** What follows the name: a `;`, a newline and the closing indentation. */
  const CjsDefaultTail := ";\n      "

  /** `this.exports.map(n => `exports.${n} = ${n};`)`: every CommonJS named
      statement carries its own `;`. */
  function CjsNamedExports(names: seq<string>): (r: seq<string>)
    ensures |r| == |names|
    ensures forall i :: 0 <= i < |names| ==> r[i] == "exports." + names[i] + " = " + names[i] + ";"
  {
    if names == [] then [] else ["exports." + names[0] + " = " + names[0] + ";"] + CjsNamedExports(names[1..])
  }

  /** The template with `value: true;` and `exports['default'] = d;` for a
      truthy default, `undefined` otherwise. */
  function CjsDefaultExport(defaultExport: Option<string>): (r: Option<string>)
    ensures r.Some? <==> Truthy(defaultExport)
    ensures r.Some? ==> Truthy(r) && r.value == CjsDefaultHead + ("= " + defaultExport.value + CjsDefaultTail)
  {
    if Truthy(defaultExport) then Some(CjsDefaultHead + ("= " + defaultExport.value + CjsDefaultTail)) else None
  }

  /** The values `this.getNamedExports()` and `this.getDefaultExport()`
      return: an array or `undefined`, a statement or `undefined`. */
  datatype Rendered = Rendered(named: Option<seq<string>>, default: Option<string>)

  /** The renderers of an object of the given class: the base class's empty
      methods return `undefined`. */
  function RenderedOf(kind: Kind, defaultExport: Option<string>, exports: seq<string>): (r: Rendered)
    ensures kind == Base <==> r.named.None?
    ensures kind == Base ==> r.default.None?
    ensures kind != Base ==> |r.named.value| == |exports|
    ensures kind != Base ==> (r.default.Some? <==> Truthy(defaultExport))
  {
    match kind
    case Base => Rendered(None, None)
    case Es6 => Rendered(Some(ExportersEs6.NamedExports(exports)), ExportersEs6.DefaultExport(defaultExport))
    case Cjs => Rendered(Some(CjsNamedExports(exports)), CjsDefaultExport(defaultExport))
  }

  /** `getExports()` without the array check: on `undefined` the `push` (when
      the default is truthy) or else the `join` throws a `TypeError`; on an
      array, the named statements followed by the truthy default, joined. */
  function ExportsOf(r: Rendered): (block: Result<string, Thrown>)
    ensures block.Failure? <==> r.named.None?
    ensures block.Failure? ==> block.error.TypeError?
    ensures block.Success? ==> |block.value| > 0 && block.value[|block.value| - 1] == ';'
  {
    match r.named
    case None =>
      Failure(TypeError(if Truthy(r.default) then PushOnUndefinedMessage else JoinOnUndefinedMessage))
    case Some(named) =>
      Success(Block(PushDefault(named, r.default)))
  }

  /** `processSourceCode(s)`: the source, a `;` unless it already ends in
      one, a newline and the block. */
  function ProcessedOf(r: Rendered, source: string): (out: Result<string, Thrown>)
    ensures out.Failure? <==> ExportsOf(r).Failure?
    ensures out.Failure? ==> out.error == ExportsOf(r).error
    ensures out.Success? ==> out.value == AppendBlock(source, ExportsOf(r).value)
  {
    match ExportsOf(r)
    case Failure(e) => Failure(e)
    case Success(block) => Success(AppendBlock(source, block))
  }

  lemma ProcessedIsAppended(r: Rendered, source: string, block: string)
    requires ExportsOf(r) == Success(block)
    ensures ProcessedOf(r, source) == Success(AppendBlock(source, block))
  {
  }

  /** The ES-module class of this module and the modular one produce the
      same output for every default, export list and source. */
  lemma Es6AgreesWithModular(defaultExport: Option<string>, exports: seq<string>, source: string)
    ensures ProcessedOf(RenderedOf(Es6, defaultExport, exports), source)
            == ExportersBase.ProcessedOf(ExportersBase.RenderersOf(Es6, defaultExport, exports), source)
  {
    var block := Block(PushDefault(ExportersEs6.NamedExports(exports), ExportersEs6.DefaultExport(defaultExport)));
    ProcessedIsAppended(RenderedOf(Es6, defaultExport, exports), source, block);
    ExportersBase.ProcessedIsAppended(ExportersBase.RenderersOf(Es6, defaultExport, exports), source, block);
  }

  /** In the CommonJS block every named statement is followed by `;;`: its
      own semicolon, then the separator or the final one. */
  lemma {:induction false} CjsNamedDoubleSemicolon(defaultExport: Option<string>, exports: seq<string>, i: nat)
    requires i < |exports|
    ensures var block := ExportsOf(RenderedOf(Cjs, defaultExport, exports)).value;
            var statements := PushDefault(CjsNamedExports(exports), CjsDefaultExport(defaultExport));
            block + "\n" == Lines(statements[..i])
                            + ("exports." + exports[i] + " = " + exports[i] + ";;\n")
                            + Lines(statements[i + 1..])
  {
    var statements := PushDefault(CjsNamedExports(exports), CjsDefaultExport(defaultExport));
    var n := exports[i];
    assert ExportsOf(RenderedOf(Cjs, defaultExport, exports)).value == Block(statements);
    assert statements[i] == "exports." + n + " = " + n + ";";
    BlockAt(statements, i);
    assert statements[i] + ";\n" == "exports." + n + " = " + n + ";;\n";
  }

  /** Without a default the CommonJS block ends in `;;`: the last named
      statement's own `;` and then the final one. */
  lemma CjsNamedOnlyBlockEndsDoubled(exports: seq<string>)
    requires exports != []
    ensures EndsWith(ExportsOf(RenderedOf(Cjs, None, exports)).value, ";;")
  {
    var named := CjsNamedExports(exports);
    var n := |named|;
    var x := exports[n - 1];
    var body := "exports." + x + " = " + x;
    assert named[..n - 1] + [body + ";"] == named;
    BlockEndsWithLast(named[..n - 1], body + ";");
    EndsWithRegrouped(body, ";", ";");
    EndsWithTransitive(Block(named), (body + ";") + ";", ";" + ";");
  }

  /** With a truthy default the CommonJS block ends in `= d;`, a newline and
      the closing indentation (`CjsDefaultTail`), then the final `;`. */
  lemma CjsDefaultBlockEnd(defaultExport: Option<string>, exports: seq<string>)
    requires Truthy(defaultExport)
    ensures EndsWith(ExportsOf(RenderedOf(Cjs, defaultExport, exports)).value,
                     "= " + defaultExport.value + CjsDefaultTail + ";")
  {
    var named := CjsNamedExports(exports);
    var assignment := "= " + defaultExport.value + CjsDefaultTail;
    assert ExportsOf(RenderedOf(Cjs, defaultExport, exports)).value == Block(named + [CjsDefaultHead + assignment]);
    BlockEndsWithLast(named, CjsDefaultHead + assignment);
    EndsWithRegrouped(CjsDefaultHead, assignment, ";");
    EndsWithTransitive(Block(named + [CjsDefaultHead + assignment]),
                       (CjsDefaultHead + assignment) + ";", assignment + ";");
  }

  /** The `__esModule` descriptor of this module's template is the object
      `{ value: true; }`: its property ends in `;` and is followed only by
      whitespace and the closing brace, which JavaScript rejects inside an
      object literal. */
  lemma CjsMarkerObjectMalformed(defaultExport: Option<string>)
    requires Truthy(defaultExport)
    ensures CjsMarkerProperty[|CjsMarkerProperty| - 1] == ';'
    ensures var t := CjsDefaultExport(defaultExport).value;
            var k := |ExportersCjs.MarkerOpen|;
            |t| >= k + |CjsMarkerProperty| + 10
            && t[k..k + |CjsMarkerProperty| + 10] == CjsMarkerProperty + "\n        }"
  {
    var rest := ExportersCjs.MarkerClose + ("= " + defaultExport.value + CjsDefaultTail);
    assert CjsDefaultExport(defaultExport).value == ExportersCjs.MarkerOpen + (CjsMarkerProperty + rest);
    ExportersCjs.MarkerCloseOpensWithBrace();
    assert rest[..10] == ExportersCjs.MarkerClose[..10];
    SliceAcross(ExportersCjs.MarkerOpen, CjsMarkerProperty, rest, 10);
  }

  /** ES-module output with a default and no named exports: the source, its
      semicolon if missing, a newline and `export default d;`. */
  lemma {:induction false} Es6DefaultOnlyOutput(source: string, name: string)
    requires name != ""
    ensures ProcessedOf(RenderedOf(Es6, Some(name), []), source)
            == Success(SemicolonTerminated(source) + "\n" + ("export default " + name + ";"))
  {
    ExportersEs6.DefaultOnlyBlock(Some(name));
    ProcessedIsAppended(RenderedOf(Es6, Some(name), []), source, "export default " + name + ";");
  }

  /** ES-module output with one named export and no default: the source,
      its semicolon if missing, a newline and `export n;`. */
  lemma {:induction false} Es6NamedOnlyOutput(source: string, name: string)
    ensures ProcessedOf(RenderedOf(Es6, None, [name]), source)
            == Success(SemicolonTerminated(source) + "\n" + ("export " + name + ";"))
  {
    assert ExportersEs6.NamedExports([name]) == ["export " + name];
    ProcessedIsAppended(RenderedOf(Es6, None, [name]), source, "export " + name + ";");
  }

  /** ES-module output with a default and one named export: the named
      statement comes first, the default statement last. */
  lemma {:induction false} Es6NamedThenDefaultOutput(source: string, name: string, named: string)
    requires name != ""
    ensures ProcessedOf(RenderedOf(Es6, Some(name), [named]), source)
            == Success(SemicolonTerminated(source) + "\n"
                       + (("export " + named + ";\n") + ("export default " + name + ";")))
  {
    var first := ["export " + named];
    var d := "export default " + name;
    assert ExportersEs6.NamedExports([named]) == first;
    assert ExportersEs6.DefaultExport(Some(name)) == Some(d);
    BlockPush(first, d);
    assert Join(first, ";\n") == "export " + named;
    var block := ("export " + named + ";\n") + (d + ";");
    assert ("export " + named + ";\n") + d + ";" == block;
    assert ExportsOf(RenderedOf(Es6, Some(name), [named])) == Success(block);
    ProcessedIsAppended(RenderedOf(Es6, Some(name), [named]), source, block);
  }

  /** `"function Foo() {}"` fails the semicolon test and so gains one. */
  lemma FooSourceUnterminated()
    ensures !EndsWithSemicolon("function Foo() {}")
  {
    var s := "function Foo() {}";
    EndsWithSemicolonIsLastNonWhitespace(s);
    assert TrimEnd(s) == s;
  }

  /** `"function Foo() {};\nvar bar = {};"` passes the semicolon test. */
  lemma BarSourceTerminated()
    ensures EndsWithSemicolon("function Foo() {};\nvar bar = {};")
  {
    var s := "function Foo() {};\nvar bar = {};";
    assert s[|s| - 1] == ';' && s[|s|..] == [];
  }

  /** The plugin's default-export case: `function Foo() {}` with default
      `Foo` becomes `function Foo() {};\nexport default Foo;`.
      The literals are pinned by `requires` rather than written inline, which
      keeps the string reasoning small. */
  lemma DefaultExportScenario(source: string, name: string)
    requires source == "function Foo() {}" && name == "Foo"
    ensures ProcessedOf(RenderedOf(Es6, Some(name), []), source)
            == Success("function Foo() {}" + ";\n" + "export default Foo;")
  {
    FooSourceUnterminated();
    Es6DefaultOnlyOutput(source, name);
    assert SemicolonTerminated(source) + "\n" == source + ";\n";
    assert "export default " + name + ";" == "export default Foo;";
  }

  /** The plugin's named-export case: `function Foo() {}` with exports
      `['Foo']` becomes `function Foo() {};\nexport Foo;`.
      The literals are pinned by `requires` rather than written inline, which
      keeps the string reasoning small. */
  lemma NamedExportScenario(source: string, name: string)
    requires source == "function Foo() {}" && name == "Foo"
    ensures ProcessedOf(RenderedOf(Es6, None, [name]), source)
            == Success("function Foo() {}" + ";\n" + "export Foo;")
  {
    FooSourceUnterminated();
    Es6NamedOnlyOutput(source, name);
    assert SemicolonTerminated(source) + "\n" == source + ";\n";
    assert "export " + name + ";" == "export Foo;";
  }

  /** The plugin's combined case: a source already ending in `;` receives no
      second one, and `export bar` precedes `export default Foo`.
      The literals are pinned by `requires` rather than written inline, which
      keeps the string reasoning small. */
  lemma CombinedExportScenario(source: string, name: string, named: string)
    requires source == "function Foo() {};\nvar bar = {};" && name == "Foo" && named == "bar"
    ensures ProcessedOf(RenderedOf(Es6, Some(name), [named]), source)
            == Success("function Foo() {};\nvar bar = {};" + "\n" + ("export bar;\n" + "export default Foo;"))
  {
    assert SemicolonTerminated(source) == source by {
      BarSourceTerminated();
    }
    Es6NamedThenDefaultOutput(source, name, named);
    assert "export " + named + ";\n" == "export bar;\n";
    assert "export default " + name + ";" == "export default Foo;";
  }

  /** The block of one CommonJS named statement and a default statement. */
  lemma CjsNamedThenDefaultBlock(name: string, named: string)
    requires name != ""
    ensures ExportsOf(RenderedOf(Cjs, Some(name), [named]))
            == Success((("exports." + named + " = " + named) + ";") + ";\n" + CjsDefaultExport(Some(name)).value + ";")
  {
    var stmt := "exports." + named + " = " + named;
    assert CjsNamedExports([named]) == [stmt + ";"];
    BlockPush([stmt + ";"], CjsDefaultExport(Some(name)).value);
  }

  /** The default template regrouped around the assignment `exports['default'] = d`. */
  lemma CjsDefaultSplit(name: string)
    requires name != ""
    ensures CjsDefaultExport(Some(name)).value
            == (ExportersCjs.MarkerOpen + CjsMarkerProperty + ExportersCjs.MarkerEnd)
               + ((ExportersCjs.AssignTarget + ("= " + name)) + CjsDefaultTail)
  {
  }

  /** Both the named statement and the assignment inside the default
      statement occur in a block of two statements appended to a source. */
  lemma TwoStatementOutputContains(prefix: string, stmt: string, head: string, key: string, tail: string)
    ensures var out := prefix + ((stmt + ";") + ";\n" + (head + (key + tail)) + ";");
            Contains(out, stmt) && Contains(out, key)
  {
    var out := prefix + ((stmt + ";") + ";\n" + (head + (key + tail)) + ";");
    var rest := ";" + ";\n" + (head + (key + tail)) + ";";
    assert out == prefix + (stmt + rest);
    ContainsMiddle(prefix, stmt, rest);
    var before := prefix + (stmt + ";" + ";\n") + head;
    assert out == before + (key + (tail + ";"));
    ContainsMiddle(before, key, tail + ";");
  }

  /** A CommonJS exporter with one named export and a truthy default writes
      both assignments, `exports.n = n` and `exports['default'] = d`, into
      its output. */
  lemma CjsNamedThenDefaultOutput(source: string, name: string, named: string)
    requires name != ""
    ensures ProcessedOf(RenderedOf(Cjs, Some(name), [named]), source).Success?
    ensures Contains(ProcessedOf(RenderedOf(Cjs, Some(name), [named]), source).value,
                     "exports." + named + " = " + named)
    ensures Contains(ProcessedOf(RenderedOf(Cjs, Some(name), [named]), source).value,
                     ExportersCjs.AssignTarget + ("= " + name))
  {
    var r := RenderedOf(Cjs, Some(name), [named]);
    var stmt := "exports." + named + " = " + named;
    var head := ExportersCjs.MarkerOpen + CjsMarkerProperty + ExportersCjs.MarkerEnd;
    var key := ExportersCjs.AssignTarget + ("= " + name);
    var block := (stmt + ";") + ";\n" + (head + (key + CjsDefaultTail)) + ";";
    assert ExportsOf(r) == Success(block) by {
      CjsNamedThenDefaultBlock(name, named);
      CjsDefaultSplit(name);
    }
    ProcessedIsAppended(r, source, block);
    TwoStatementOutputContains(SemicolonTerminated(source) + "\n", stmt, head, key, CjsDefaultTail);
  }

  /** With the plugin's names the two assignments read `exports.bar = bar`
      and `exports['default'] = Foo`. */
  lemma PluginAssignmentsSpelled(out: string, name: string, named: string)
    requires name == "Foo" && named == "bar"
    requires Contains(out, "exports." + named + " = " + named)
    requires Contains(out, ExportersCjs.AssignTarget + ("= " + name))
    ensures Contains(out, "exports.bar = bar") && Contains(out, "exports['default'] = Foo")
  {
    assert "exports." + named + " = " + named == "exports.bar = bar";
    assert ExportersCjs.AssignTarget + ("= " + name) == "exports['default'] = Foo";
  }

  /** The plugin's CommonJS case: the output holds the named assignment
      `exports.bar = bar` and the default assignment `exports['default'] = Foo`.
      The literals are pinned by `requires` rather than written inline, which
      keeps the string reasoning small. */
  lemma CjsCombinedScenario(source: string, name: string, named: string)
    requires source == "function Foo() {};\nvar bar = {};" && name == "Foo" && named == "bar"
    ensures ProcessedOf(RenderedOf(Cjs, Some(name), [named]), source).Success?
    ensures Contains(ProcessedOf(RenderedOf(Cjs, Some(name), [named]), source).value, "exports.bar = bar")
    ensures Contains(ProcessedOf(RenderedOf(Cjs, Some(name), [named]), source).value, "exports['default'] = Foo")
  {
    CjsNamedThenDefaultOutput(source, name, named);
    PluginAssignmentsSpelled(ProcessedOf(RenderedOf(Cjs, Some(name), [named]), source).value, name, named);
  }

  /** An exporter object of this module; the fields are only read after
      construction. */
  class GlobalExporter {
    const kind: Kind
    var defaultExport: Option<string>
    var exports: seq<string>

    ghost predicate Valid()
      reads this
    {
      Admissible(defaultExport, exports)
    }

    constructor (kind: Kind, defaultExport: Option<string>, exports: seq<string>)
      requires Admissible(defaultExport, exports)
      ensures Valid()
      ensures this.kind == kind && this.defaultExport == defaultExport && this.exports == exports
    {
      this.kind := kind;
      this.defaultExport := defaultExport;
      this.exports := exports;
    }

    /** `new BaseGlobalExporter(defaultExport, exports)` (or a subclass):
        throws unless the default is truthy or there is a named export;
        otherwise the fields hold the arguments, `exports` defaulting to `[]`. */
    static method Create(kind: Kind, defaultExport: Option<string>, exports: Option<seq<string>>)
      returns (r: Result<GlobalExporter, Thrown>)
      ensures r.Failure? <==> !Admissible(defaultExport, ExportsOrEmpty(exports))
      ensures r.Failure? ==> r.error == Error(ConstructionMessage)
      ensures r.Success? ==> fresh(r.value) && r.value.Valid() && r.value.kind == kind
      ensures r.Success? ==> r.value.defaultExport == defaultExport
      ensures r.Success? ==> r.value.exports == ExportsOrEmpty(exports)
    {
      var names := if exports.Some? then exports.value else [];
      if !(Truthy(defaultExport) || |names| > 0) {
        return Failure(Error(ConstructionMessage));
      }
      var exporter := new GlobalExporter(kind, defaultExport, names);
      return Success(exporter);
    }

    /** `getExports()`. On an object of the base class the `join` on
        `undefined` throws; a valid object of a format class yields a block
        with at least one statement. */
    method GetExports() returns (block: Result<string, Thrown>)
      ensures block == ExportsOf(RenderedOf(kind, defaultExport, exports))
      ensures kind == Base ==> block == Failure(TypeError(JoinOnUndefinedMessage))
      ensures kind != Base && Valid() ==> block.Success? && |block.value| > 1
    {
      var named: seq<string>;
      var default: Option<string>;
      match kind {
        case Base =>
          return Failure(TypeError(JoinOnUndefinedMessage));
        case Es6 =>
          named := ExportersEs6.NamedExports(exports);
          default := ExportersEs6.DefaultExport(defaultExport);
        case Cjs =>
          named := CjsNamedExports(exports);
          default := CjsDefaultExport(defaultExport);
      }
      var statements := named;
      if Truthy(default) {
        statements := statements + [default.value];
      }
      block := Success(Join(statements, ";\n") + ";");
      if Valid() && |statements| > 0 {
        assert Join(statements, ";\n")[..|statements[0]|] == statements[0];
        assert statements[0] != "";
      }
    }

    /** `processSourceCode(sourceCode)`. */
    method ProcessSourceCode(sourceCode: string) returns (r: Result<string, Thrown>)
      ensures r == ProcessedOf(RenderedOf(kind, defaultExport, exports), sourceCode)
    {
      var block := GetExports();
      if block.Failure? {
        return Failure(block.error);
      }
      var source := sourceCode;
      if !EndsWithSemicolon(source) {
        source := source + ";";
      }
      return Success(source + "\n" + block.value);
    }
  }

  /** `getExporter(moduleType, defaultExport, exports)`: the same selection
      as the modular factory, and the same forwarding of the arguments. */
  method GetExporter(moduleType: Option<string>, defaultExport: Option<string>, exports: Option<seq<string>>)
    returns (r: Result<GlobalExporter, Thrown>)
    ensures r.Failure? <==> !Admissible(defaultExport, ExportsOrEmpty(exports))
    ensures r.Failure? ==> r.error == Error(ConstructionMessage)
    ensures r.Success? ==> fresh(r.value) && r.value.Valid()
    ensures r.Success? ==> r.value.kind == ExportersFactory.ExporterKind(moduleType)
    ensures r.Success? ==> r.value.defaultExport == defaultExport
    ensures r.Success? ==> r.value.exports == ExportsOrEmpty(exports)
  {
    var kind := Es6;
    if moduleType == Some("cjs") {
      kind := Cjs;
    }
    r := GlobalExporter.Create(kind, defaultExport, exports);
  }
}
