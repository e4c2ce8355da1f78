/** `BaseGlobalExporter` of the modular version: the construction check,
    the abstract renderers, the shared `getExports` algorithm and
    `processSourceCode`. The subclass an object was created from is its
    `kind`; the renderers of each kind come from the format modules. */
module ExportersBase {
  import opened JsText
  import opened ExportLayout
  import ExportersEs6
  import ExportersCjs

  const NotImplementedMessage := "not implemented"
  const NotArrayMessage := "getNamedExports must return an array of strings"

  /** What `getNamedExports` returned: an array of statements or a value of
      another type. */
  datatype NamedValue = ArrayValue(items: seq<string>) | NonArray

  /** The outcome of calling one renderer. */
  datatype Call<+T> = Returned(value: T) | Threw(error: Thrown)

  /** The outcomes of `this.getNamedExports()` and `this.getDefaultExport()`,
      whatever methods the object carries at the time of the call. */
  datatype Renderers = Renderers(named: Call<NamedValue>, default: Call<Option<string>>)

  /** The renderers of an object created from the given class: the base
      class's throw, the subclasses' return an array and a statement or
      `undefined`. */
  function RenderersOf(kind: Kind, defaultExport: Option<string>, exports: seq<string>): (r: Renderers)
    ensures kind == Base <==> r.named.Threw?
    ensures kind == Base ==> r.named == Threw(Error(NotImplementedMessage))
    ensures kind == Base ==> r.default == Threw(Error(NotImplementedMessage))
    ensures kind != Base ==> r.named.Returned? && r.named.value.ArrayValue? && r.default.Returned?
    ensures kind != Base ==> |r.named.value.items| == |exports|
    ensures kind != Base ==> (r.default.value.Some? <==> Truthy(defaultExport))
    ensures kind != Base ==> (r.default.value.Some? ==> Truthy(r.default.value))
  {
    match kind
    case Base =>
      Renderers(Threw(Error(NotImplementedMessage)), Threw(Error(NotImplementedMessage)))
    case Es6 =>
      Renderers(Returned(ArrayValue(ExportersEs6.NamedExports(exports))),
                Returned(ExportersEs6.DefaultExport(defaultExport)))
    case Cjs =>
      Renderers(Returned(ArrayValue(ExportersCjs.NamedExports(exports))),
                Returned(ExportersCjs.DefaultExport(defaultExport)))
  }

  /** `getExports()`: the first renderer error propagates, a non-array from
      `getNamedExports` is a `TypeError`, and otherwise the block of the named
      statements followed by the default statement if it is truthy. */
  function ExportsOf(r: Renderers): (block: Result<string, Thrown>)
    ensures block.Failure? <==> r.named.Threw? || r.default.Threw? || r.named.value.NonArray?
    ensures r.named.Threw? ==> block == Failure(r.named.error)
    ensures r.named.Returned? && r.default.Threw? ==> block == Failure(r.default.error)
    ensures r.named.Returned? && r.default.Returned? && r.named.value.NonArray?
            ==> block == Failure(TypeError(NotArrayMessage))
    ensures block.Success? ==> |block.value| > 0 && block.value[|block.value| - 1] == ';'
  {
    if r.named.Threw? then Failure(r.named.error)
    else if r.default.Threw? then Failure(r.default.error)
    else if r.named.value.NonArray? then Failure(TypeError(NotArrayMessage))
    else Success(Block(PushDefault(r.named.value.items, r.default.value)))
  }

  /** The order of a successful block: every named statement in order, each
      followed by `;\n`, and the truthy default statement last. */
  lemma ExportsOrder(r: Renderers)
    requires r.named.Returned? && r.named.value.ArrayValue? && r.default.Returned?
    requires r.named.value.items != [] || Truthy(r.default.value)
    ensures ExportsOf(r).Success?
    ensures ExportsOf(r).value + "\n"
            == Lines(r.named.value.items)
               + (if Truthy(r.default.value) then r.default.value.value + ";\n" else "")
  {
    PushDefaultLayout(r.named.value.items, r.default.value);
  }

  /** With a default and no named exports, the block of a format subclass
      is exactly the rendered default statement followed by `;`. */
  lemma DefaultOnlyBlock(kind: Kind, defaultExport: Option<string>)
    requires kind != Base && Truthy(defaultExport)
    ensures ExportsOf(RenderersOf(kind, defaultExport, [])).Success?
    ensures ExportsOf(RenderersOf(kind, defaultExport, [])).value
            == RenderersOf(kind, defaultExport, []).default.value.value + ";"
  {
    var r := RenderersOf(kind, defaultExport, []);
    assert r.named.value.items == [];
    assert PushDefault([], r.default.value) == [r.default.value.value];
  }

  /** Unless a name itself ends in `;`, the block of a format subclass
      never ends in `;;`: the last statement is a rendered default or named
      export, and neither template ends in `;`. Only the last statement
      matters, so the conditions on the names and on the default are
      sufficient rather than necessary: a CommonJS block with a truthy
      default never ends in `;;`, whatever the names are. */
  lemma NeverEndsInDoubleSemicolon(kind: Kind, defaultExport: Option<string>, exports: seq<string>)
    requires kind != Base && Admissible(defaultExport, exports)
    requires forall i :: 0 <= i < |exports| ==> NoTrailingSemicolon(exports[i])
    requires defaultExport.Some? ==> NoTrailingSemicolon(defaultExport.value)
    ensures ExportsOf(RenderersOf(kind, defaultExport, exports)).Success?
    ensures !EndsWith(ExportsOf(RenderersOf(kind, defaultExport, exports)).value, ";;")
  {
    var r := RenderersOf(kind, defaultExport, exports);
    var statements := PushDefault(r.named.value.items, r.default.value);
    var last := statements[|statements| - 1];
    if Truthy(defaultExport) {
      assert last == r.default.value.value;
      if kind == Es6 {
        assert last == "export default " + defaultExport.value;
        assert last[|last| - 1] == defaultExport.value[|defaultExport.value| - 1];
      } else {
        assert last == ExportersCjs.DefaultHead + ("= " + defaultExport.value + ExportersCjs.DefaultTail);
        assert last[|last| - 1] == ExportersCjs.DefaultTail[|ExportersCjs.DefaultTail| - 1];
      }
    } else {
      var x := exports[|exports| - 1];
      assert NoTrailingSemicolon(x);
      if kind == Es6 {
        assert last == "export " + x;
        assert x != [] ==> last[|last| - 1] == x[|x| - 1];
      } else {
        assert last == "exports." + x + " = " + x;
        assert x != [] ==> last[|last| - 1] == x[|x| - 1];
      }
    }
    BlockNotDoubled(statements);
  }

  /** `processSourceCode(s)`: a failure of `getExports` propagates; otherwise
      the source, a `;` unless it already ends in one, a newline and the block. */
  function ProcessedOf(r: Renderers, source: string): (out: Result<string, Thrown>)
    ensures out.Failure? <==> ExportsOf(r).Failure?
    ensures out.Failure? ==> out.error == ExportsOf(r).error
    ensures out.Success? ==> source <= out.value
    ensures out.Success? ==> var block := ExportsOf(r).value;
                             |out.value| > |block| && out.value[|out.value| - |block|..] == block
    ensures out.Success? ==> out.value == AppendBlock(source, ExportsOf(r).value)
  {
    match ExportsOf(r)
    case Failure(e) => Failure(e)
    case Success(block) => Success(AppendBlock(source, block))
  }

  lemma ProcessedIsAppended(r: Renderers, source: string, block: string)
    requires ExportsOf(r) == Success(block)
    ensures ProcessedOf(r, source) == Success(AppendBlock(source, block))
  {
  }

  /** Adding the missing semicolon to the source beforehand changes nothing. */
  lemma ProcessedAbsorbsSemicolon(r: Renderers, source: string)
    requires !EndsWithSemicolon(source)
    ensures ProcessedOf(r, source + ";") == ProcessedOf(r, source)
  {
    if ExportsOf(r).Success? {
      AppendBlockAbsorbsSemicolon(source, ExportsOf(r).value);
    }
  }

  /** Renderers that return two named statements and a default statement
      (the base tests use `['coolBar', 'coolBaz']` and `'coolDefault'`):
      three terminated statements, the named ones in order, the default last. */
  lemma {:induction false} CombinesDefaultAndNamed(bar: string, baz: string, default: string)
    requires default != ""
    ensures ExportsOf(Renderers(Returned(ArrayValue([bar, baz])), Returned(Some(default))))
            == Success((bar + ";\n") + (baz + ";\n") + (default + ";"))
  {
    var all := [bar, baz, default];
    assert PushDefault([bar, baz], Some(default)) == all;
    assert all[1..][1..] == [default];
    assert Join(all[1..], ";\n") == baz + ";\n" + default;
    assert Join(all, ";\n") == bar + ";\n" + (baz + ";\n" + default);
    var x, y := bar + ";\n", baz + ";\n";
    assert (x + (y + default)) + ";" == x + ((y + default) + ";");
    assert (y + default) + ";" == y + (default + ";");
    assert x + (y + (default + ";")) == (x + y) + (default + ";");
  }

  /** The same renderers after a source that already passes the semicolon
      test (the base tests use `var i = 0;`): no second semicolon, one
      newline, then the block. */
  lemma {:induction false} ProcessesTerminatedSource(source: string, bar: string, baz: string, default: string)
    requires EndsWithSemicolon(source) && default != ""
    ensures ProcessedOf(Renderers(Returned(ArrayValue([bar, baz])), Returned(Some(default))), source)
            == Success(source + "\n" + ((bar + ";\n") + (baz + ";\n") + (default + ";")))
  {
    var block := (bar + ";\n") + (baz + ";\n") + (default + ";");
    CombinesDefaultAndNamed(bar, baz, default);
    ProcessedIsAppended(Renderers(Returned(ArrayValue([bar, baz])), Returned(Some(default))), source, block);
  }

  /** `var i = 0;` passes the semicolon test. */
  lemma TerminatedSourcePasses()
    ensures EndsWithSemicolon("var i = 0;")
  {
    var s := "var i = 0;";
    assert s[9] == ';' && s[10..] == [];
  }

  /** A `getNamedExports` that returns a string makes `getExports` throw a
      `TypeError`, even with a default export. */
  lemma NonArrayIsTypeError(default: Option<string>)
    ensures ExportsOf(Renderers(Returned(NonArray), Returned(default)))
            == Failure(TypeError(NotArrayMessage))
  {
  }

  /** An exporter object. Its fields are set once by the constructor and only
      read by the other methods, which therefore leave them unchanged. */
  class GlobalExporter {
    const kind: Kind
    var defaultExport: Option<string>
    var exports: seq<string>

    /** The construction invariant: a truthy default or a named export. */
    ghost predicate Valid()
      reads this
    {
      Admissible(defaultExport, exports)
    }

    constructor (kind: Kind, defaultExport: Option<string>, exports: seq<string>)
      requires Admissible(defaultExport, exports)
      ensures Valid()
      ensures this.kind == kind && this.defaultExport == defaultExport && this.exports == exports
    {
      this.kind := kind;
      this.defaultExport := defaultExport;
      this.exports := exports;
    }

    /** `new BaseGlobalExporter(defaultExport, exports)` (or a subclass):
        throws unless the default is truthy or there is a named export;
        otherwise the fields hold the arguments, `exports` defaulting to `[]`. */
    static method Create(kind: Kind, defaultExport: Option<string>, exports: Option<seq<string>>)
      returns (r: Result<GlobalExporter, Thrown>)
      ensures r.Failure? <==> !Admissible(defaultExport, ExportsOrEmpty(exports))
      ensures r.Failure? ==> r.error == Error(ConstructionMessage)
      ensures r.Success? ==> fresh(r.value) && r.value.Valid() && r.value.kind == kind
      ensures r.Success? ==> r.value.defaultExport == defaultExport
      ensures r.Success? ==> r.value.exports == ExportsOrEmpty(exports)
    {
      var names := if exports.Some? then exports.value else [];
      if !(Truthy(defaultExport) || |names| > 0) {
        return Failure(Error(ConstructionMessage));
      }
      var exporter := new GlobalExporter(kind, defaultExport, names);
      return Success(exporter);
    }

    /** `getExports()`. An object of the base class throws "not implemented";
        a valid object of a format subclass always yields a block holding at
        least one statement. */
    method GetExports() returns (block: Result<string, Thrown>)
      ensures block == ExportsOf(RenderersOf(kind, defaultExport, exports))
      ensures kind == Base ==> block == Failure(Error(NotImplementedMessage))
      ensures kind != Base && Valid() ==> block.Success? && |block.value| > 1
    {
      var named: seq<string>;
      var default: Option<string>;
      match kind {
        case Base =>
          return Failure(Error(NotImplementedMessage));
        case Es6 =>
          named := ExportersEs6.NamedExports(exports);
          default := ExportersEs6.DefaultExport(defaultExport);
        case Cjs =>
          named := ExportersCjs.NamedExports(exports);
          default := ExportersCjs.DefaultExport(defaultExport);
      }
      var statements := named;
      if Truthy(default) {
        statements := statements + [default.value];
      }
      block := Success(Join(statements, ";\n") + ";");
      if Valid() && |statements| > 0 {
        assert Join(statements, ";\n")[..|statements[0]|] == statements[0];
        assert statements[0] != "";
      }
    }

    /** `processSourceCode(sourceCode)`. */
    method ProcessSourceCode(sourceCode: string) returns (r: Result<string, Thrown>)
      ensures r == ProcessedOf(RenderersOf(kind, defaultExport, exports), sourceCode)
    {
      var block := GetExports();
      if block.Failure? {
        return Failure(block.error);
      }
      var source := sourceCode;
      if !EndsWithSemicolon(source) {
        source := source + ";";
      }
      return Success(source + "\n" + block.value);
    }
  }
}
