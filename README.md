# broccoli-global-exporter: the export-statement generator

This project models the part of broccoli-global-exporter that turns a
default-export name and a list of named exports into export statements. It
also models how that export block is appended to a file's source code. The
repository holds three implementations of that generator, and each is
modelled as written:

- **Modular** (`src/exporters/`): an abstract `BaseGlobalExporter` with the
  construction check, the shared `getExports` and `processSourceCode`
  algorithms, two format subclasses (ES module and CommonJS) supplying the
  renderers, and `exporterFactory`. Dafny modules `ExportersBase`,
  `ExportersEs6`, `ExportersCjs`, `ExportersFactory`.
- **Monolithic** (`src/global-exporter.js`): the file the ES-module Broccoli
  plugin imports (`src/global-export-writer.js:8`). It has its own base class, whose renderers return
  `undefined`, and no array check. Its CommonJS templates differ from the
  modular ones. Dafny module `Monolithic`.
- **Legacy ES5** (`global-exporter.js`): the file the root Babel-based
  plugin imports (`index.js:11`). It always emits a default statement and
  appends the block with no newline. Dafny module `Legacy`.

Shared JavaScript semantics live in `JsText`:
- truthiness of `undefined`/string values;
- `Array.prototype.join`;
- thrown errors;
- the regular expression `/;\s*$/`, over the ECMAScript `\s` set.

The layout is in `ExportLayout`. All three implementations share the
construction rule and `join(';\n') + ';'`. The conditional push of the
default statement and the semicolon-then-newline merge belong to the modular
and monolithic versions only; the legacy version pushes the default
unconditionally and appends the block with no newline.

How JavaScript is represented:
- A value that is a string or `undefined` is `Option<string>`.
- An exception is `Failure(Thrown)` in a `Result`.
- An exporter object is a Dafny `class` with the two fields the constructor
  assigns. The JavaScript class it was created from is the constant `kind`.
- A constructor that can throw is the static method `Create`, returning a
  `Result`.
- `getExports` builds its local array with a push. `processSourceCode`
  rebinds `sourceCode`. Both are methods, and each is proved equal to a
  specification function (`ExportsOf`, `ProcessedOf`). The lemmas state the
  properties of those functions.
- The modular base tests replace `getNamedExports`/`getDefaultExport` on an
  object by assignment. That is modelled by `ExportersBase.ExportsOf`, which
  takes the outcomes of the two renderer calls (`Renderers`) as its
  argument. The outcomes a real object of each class produces are
  `ExportersBase.RenderersOf`.

## Model

| member | source | states |
|---|---|---|
| JsText.JoinPush | src/exporters/base.js:46-50 | pushing `x` onto an array appends the separator and `x` to its join, or gives just `x` for an empty array |
| JsText.TrimEnd | src/exporters/base.js:61 | the result is a prefix of the source, only whitespace was removed, and it does not end in whitespace |
| JsText.EndsWithSemicolonIsLastNonWhitespace | src/exporters/base.js:61-62 | `/;\s*$/` matches exactly when the last non-whitespace character is `;` (both directions) |
| JsText.TrailingWhitespaceIrrelevant | src/exporters/base.js:62 | appending whitespace never changes the semicolon test |
| JsText.TrimEndIgnoresWhitespace | src/exporters/base.js:61 | trimming ignores appended whitespace |
| JsText.SemicolonTerminated | src/exporters/base.js:62-64 | the result passes the test and extends the source by at most one `;`; it is unchanged iff the source already passed |
| JsText.SemicolonAbsorbed | src/exporters/base.js:62-64 | normalising `s` and `s + ";"` agree when `s` fails the test |
| JsText.SemicolonTerminatedIdempotent | src/exporters/base.js:62-64 | normalising twice is normalising once |
| ExportLayout.PushDefault | src/exporters/base.js:46-48 | the named statements keep their places, and one more statement, the default, follows them exactly when it is truthy |
| ExportLayout.Block | src/exporters/base.js:50 | the block always ends in `;` and is `;` for an empty array |
| ExportLayout.BlockIsLines | src/exporters/base.js:50 | the block plus a newline equals every statement in order, each followed by `;\n` |
| ExportLayout.BlockAt | src/exporters/base.js:50 | statement `i` sits between the earlier and later statements, followed by `;\n` |
| ExportLayout.PushDefaultLayout | src/exporters/base.js:46-50 | the named statements in order, then the truthy default statement last |
| ExportLayout.BlockPush | src/exporters/base.js:46-50 | a pushed statement ends the block, after `;\n` when other statements precede it |
| ExportLayout.BlockEndsWithLast | src/exporters/base.js:46-50 | the block ends with its last statement followed by `;` |
| ExportLayout.BlockNotDoubled | src/exporters/base.js:50 | a block whose last statement does not end in `;` does not end in `;;`, an empty last statement included |
| ExportLayout.AppendBlock | src/exporters/base.js:58-67 | the source is a prefix, the block a suffix, and between them only `\n` (source passed the test) or `;\n` |
| ExportLayout.BlockOnItsOwnLine | src/exporters/base.js:66 | the character before the block is a newline |
| ExportLayout.AppendBlockAbsorbsSemicolon | src/exporters/base.js:62-66 | adding the missing `;` beforehand gives the same output |
| ExportersEs6.NamedExports | src/exporters/es6.js:11-13 | one statement `export n` per name, same length and order |
| ExportersEs6.DefaultExport | src/exporters/es6.js:19-23 | `export default d` iff the default is truthy, `undefined` otherwise; a rendered statement is truthy |
| ExportersEs6.BlockLayout | src/exporters/es6.js:11-23 | a valid object's block: `export n;` per name in order, then `export default d;` iff the default is truthy |
| ExportersEs6.DefaultOnlyBlock | src/exporters/es6.js:19-23 | with no named exports the block is exactly `export default d;` |
| ExportersCjs.NamedExports | src/exporters/cjs.js:11-13 | one statement `exports.n = n` per name, same length and order |
| ExportersCjs.DefaultExport | src/exporters/cjs.js:19-28 | the `__esModule` marker and `exports['default'] = d` template iff the default is truthy, so no marker without a default |
| ExportersCjs.DefaultBlockEnd | src/exporters/cjs.js:25-26 | a block with a default ends in `= d`, the template's trailing newline and indentation, then `;` |
| ExportersCjs.MarkerCloseOpensWithBrace | src/exporters/cjs.js:23-24 | the template's text after the descriptor property starts with a newline, indentation and `}` |
| ExportersCjs.MarkerObjectWellFormed | src/exporters/cjs.js:22-24 | the descriptor object's property is `value: true`, with no `;`, followed by whitespace and the closing brace |
| ExportersCjs.NamedOnlyBlock | src/exporters/cjs.js:11-13 | without a default the block is `exports.n = n;` per name in order |
| ExportersBase.RenderersOf | src/exporters/base.js:21-32 | base-class renderers throw `not implemented`; subclass renderers return an array as long as `exports` and a statement iff the default is truthy |
| ExportersBase.ExportsOf | src/exporters/base.js:38-51 | fails exactly when a renderer throws (the named one first) or returns a non-array (`TypeError`); otherwise a block ending in `;` |
| ExportersBase.ExportsOrder | src/exporters/base.js:46-50 | a successful block lists the named statements in order and the truthy default last |
| ExportersBase.DefaultOnlyBlock | src/exporters/base.js:38-51 | with no named exports the block is the rendered default statement followed by `;` |
| ExportersBase.NeverEndsInDoubleSemicolon | src/exporters/base.js:38-51 | unless a name ends in `;`, a format subclass's block never ends in `;;` |
| ExportersBase.ProcessedOf | src/exporters/base.js:58-67 | a `getExports` failure propagates unchanged; otherwise the output is `AppendBlock` of the source and the block: the source, `;` only when it fails the test, a newline and the block |
| ExportersBase.ProcessedAbsorbsSemicolon | src/exporters/base.js:62-66 | processing `s` and `s + ";"` agree when `s` fails the test |
| ExportersBase.CombinesDefaultAndNamed | src/exporters/base.js:38-51 | renderers returning `[bar, baz]` and `default` give `bar;\nbaz;\ndefault;` |
| ExportersBase.ProcessesTerminatedSource | src/exporters/base.js:58-67 | a source passing the test is followed by `\n` and the block, with no added `;` |
| ExportersBase.TerminatedSourcePasses | src/exporters/base.js:62 | `var i = 0;` passes the semicolon test |
| ExportersBase.NonArrayIsTypeError | src/exporters/base.js:42-44 | a non-array from `getNamedExports` is a `TypeError`, whatever the default |
| ExportersBase.GlobalExporter.constructor | src/exporters/base.js:12-13 | called only with a truthy default or a named export, it establishes `Valid()` and the fields hold the arguments |
| ExportersBase.GlobalExporter.Create | src/exporters/base.js:7-14 | throws the construction `Error` iff the default is falsy and `exports` empty; otherwise a valid object holding the arguments |
| ExportersBase.GlobalExporter.GetExports | src/exporters/base.js:38-51 | equals `ExportsOf` of the object's renderers; the base class throws, a valid subclass object yields at least one statement |
| ExportersBase.GlobalExporter.ProcessSourceCode | src/exporters/base.js:58-67 | equals `ProcessedOf` of the object's renderers and the source |
| ExportersFactory.ExporterKind | src/exporters/factory.js:11-14 | CommonJS exactly for `'cjs'`, ES module otherwise, never the base class |
| ExportersFactory.ExporterFactory | src/exporters/factory.js:10-16 | the construction error for every module type; otherwise an object of the chosen class with the forwarded arguments |
| ExportersFactory.FactoryExportersRender | src/exporters/factory.js:10-16 | every object the factory creates renders a block that is not `;`, with named statements in order and the truthy default last |
| Monolithic.CjsNamedExports | src/global-exporter.js:94-96 | one statement `exports.n = n;` per name, same order |
| Monolithic.CjsDefaultExport | src/global-exporter.js:102-111 | the template with `value: true;` and `exports['default'] = d;` iff the default is truthy |
| Monolithic.RenderedOf | src/global-exporter.js:21-28 | base-class renderers return `undefined`; subclass renderers return an array as long as `exports` and a statement iff the default is truthy |
| Monolithic.ExportsOf | src/global-exporter.js:35-44 | a `TypeError` exactly when the named renderer returned `undefined`; otherwise a block ending in `;` |
| Monolithic.ProcessedOf | src/global-exporter.js:51-60 | a `getExports` failure propagates with the same error; otherwise the source, the conditional `;`, a newline and the block |
| Monolithic.Es6AgreesWithModular | src/global-exporter.js:66-84 | its ES-module class produces the same output as the modular one for every input |
| Monolithic.CjsNamedDoubleSemicolon | src/global-exporter.js:94-96 | every CommonJS named statement is followed by `;;` in the block |
| Monolithic.CjsNamedOnlyBlockEndsDoubled | src/global-exporter.js:94-96 | without a default the CommonJS block ends in `;;` |
| Monolithic.CjsDefaultBlockEnd | src/global-exporter.js:108-109 | a block with a default ends in `= d;`, a newline and indentation, then `;` |
| Monolithic.CjsMarkerObjectMalformed | src/global-exporter.js:105-107 | the descriptor's property is `value: true;`, directly followed by whitespace and the closing brace |
| Monolithic.Es6DefaultOnlyOutput | src/global-exporter.js:51-60 | a default alone gives the normalised source, `\n`, `export default d;` |
| Monolithic.Es6NamedOnlyOutput | src/global-exporter.js:51-60 | one named export alone gives the normalised source, `\n`, `export n;` |
| Monolithic.Es6NamedThenDefaultOutput | src/global-exporter.js:35-59 | a named export and a default give `export n;\nexport default d;` after the normalised source |
| Monolithic.FooSourceUnterminated | src/global-exporter.js:55 | `function Foo() {}` fails the semicolon test |
| Monolithic.BarSourceTerminated | src/global-exporter.js:55 | `function Foo() {};\nvar bar = {};` passes it |
| Monolithic.DefaultExportScenario | src/global-exporter.js:51-60 | `function Foo() {}` with default `Foo` gives `function Foo() {};\nexport default Foo;` |
| Monolithic.NamedExportScenario | src/global-exporter.js:51-60 | the same source with exports `['Foo']` gives `function Foo() {};\nexport Foo;` |
| Monolithic.CombinedExportScenario | src/global-exporter.js:35-59 | `function Foo() {};\nvar bar = {};` with default `Foo` and exports `['bar']` gives the source, `\nexport bar;\nexport default Foo;` |
| Monolithic.CjsNamedThenDefaultOutput | src/global-exporter.js:94-109 | a CommonJS exporter with one named export `n` and a truthy default `d` writes both `exports.n = n` and `exports['default'] = d` into its output, whatever the source |
| Monolithic.CjsCombinedScenario | specs/global-export-writer.js:89-107 | `function Foo() {};\nvar bar = {};` with default `Foo`, exports `['bar']` and module type `'cjs'` gives output containing `exports.bar = bar` and `exports['default'] = Foo` |
| Monolithic.GlobalExporter.constructor | src/global-exporter.js:12-13 | called only with a truthy default or a named export, it establishes `Valid()` and the fields hold the arguments |
| Monolithic.GlobalExporter.Create | src/global-exporter.js:7-14 | throws the construction `Error` iff the default is falsy and `exports` empty; otherwise a valid object holding the arguments |
| Monolithic.GlobalExporter.GetExports | src/global-exporter.js:35-44 | equals `ExportsOf` of the object's renderers; the base class throws on `join`, a valid subclass object yields at least one statement |
| Monolithic.GlobalExporter.ProcessSourceCode | src/global-exporter.js:51-60 | equals `ProcessedOf` of the object's renderers and the source |
| Monolithic.GetExporter | src/global-exporter.js:120-126 | same class choice as the modular factory, same construction error, forwarded arguments |
| Legacy.DefaultExport | global-exporter.js:35-37 | always `export default ` followed by the default, or by `undefined` when there is none |
| Legacy.Statements | global-exporter.js:24-46 | the array `_getExports` joins: exactly one more statement than names, `export n` per name in order (`_getNamedExports`), then the default statement |
| Legacy.ExportsOf | global-exporter.js:44-48 | the block ends with the default statement and `;` |
| Legacy.ExportsLayout | global-exporter.js:44-48 | the block is `export n;` per name in order, then the default statement, whatever the default is |
| Legacy.FalsyDefaultStillExported | global-exporter.js:35-37 | with no default the block ends in `export default undefined;`, with `''` in `export default ;` |
| Legacy.ProcessedOf | global-exporter.js:55-61 | the source is a prefix, the block a suffix, and between them a `;` iff the source failed the test; nothing else |
| Legacy.ProcessedAbsorbsSemicolon | global-exporter.js:57-59 | adding the missing `;` beforehand gives the same output |
| Legacy.AgreesWithModularExceptNewline | global-exporter.js:55-61 | with a truthy default, the modular ES-module output is the legacy output with a newline inserted before the block |
| Legacy.SingleLineStaysSingleLine | global-exporter.js:60 | a one-line source and default give one-line output |
| Legacy.CommentedSourceUnterminated | global-exporter.js:57 | `var x = 1 // one` fails the semicolon test |
| Legacy.LineCommentSwallowsExports | global-exporter.js:55-61 | `var x = 1 // one` with default `Foo` gives `var x = 1 // one;export default Foo;` |
| Legacy.GlobalExporter.constructor | global-exporter.js:15-16 | called only with a truthy default or a named export, it establishes `Valid()` and the fields hold the arguments |
| Legacy.GlobalExporter.Create | global-exporter.js:8-17 | `exports || []`, the construction `Error` iff the default is falsy and `exports` empty, otherwise a valid object |
| Legacy.GlobalExporter.GetExports | global-exporter.js:44-48 | equals `ExportsOf` of the fields and ends with the default statement and `;` |
| Legacy.GlobalExporter.ProcessSourceCode | global-exporter.js:55-61 | equals `ProcessedOf` of the fields and the source |

## Left out

- `src/global-export-writer.js` is not part of this model. It is Broccoli plumbing: it reads and writes files and joins paths. `MultiGlobalExportWriter` documents a multi-file API, but its constructor is empty, so there is no behaviour to model.
- `index.js` is not part of this model. It does file I/O and calls Babel to transpile.
- `src/index.js` is not part of this model. It is a one-line wrapper with no single-file/batch dispatch, although `specs/index.js` expects one.
- Exports are stored by reference (`this.exports = exports`), so a caller mutating its array later changes the output. The model stores a value (`seq<string>`) and does not capture that aliasing.
- JavaScript values other than strings and `undefined` are not modelled. This covers `null`, numbers and objects as a default or as names, and a `null` `exports` array.
- The public fields can be reassigned after construction. `Valid()` is established by the constructor (and so by `Create`) and is not re-checked by the other methods. Their contracts hold whatever the fields hold.
- The `TypeError` messages of the monolithic version on `undefined.push`/`undefined.join` are the engine's. The model uses the V8 wording.
- `/;\s*$/` is written out as a predicate over the fixed ECMAScript `\s` set, not run through a regular-expression engine.
- The modular base tests replace renderer methods by assignment. That is modelled by passing the renderer outcomes (`ExportersBase.Renderers`) as data.
- Where the tests under `specs/` and the code disagree, the model follows the code:
  - `src/global-exporter.js` keeps its own base class, so `specs/global-exporter.js:11-13` (subclasses of the modular base) does not hold of it.
  - The CommonJS named statements of `src/global-exporter.js` end in `;`, unlike `specs/global-exporter.js:56-59`.
  - A CommonJS block there can end in `;;` (see Findings).

## Findings

| source | as written | input that shows it | evidently intended | confidence | as-written member | corrected member |
|---|---|---|---|---|---|---|
| src/global-exporter.js:106 | the `__esModule` descriptor is written `{ value: true; }`, which is a syntax error in an object literal | `getExporter('cjs', 'Foo')` | `value: true` as in src/exporters/cjs.js:23 | not executed; high | Monolithic.CjsMarkerObjectMalformed | ExportersCjs.MarkerObjectWellFormed |
| src/global-exporter.js:95 | each CommonJS named statement carries its own `;`, so the block holds `;;` and ends in it | `getExporter('cjs', undefined, ['bar'])` gives `exports.bar = bar;;` | `exports.bar = bar;`, as specs/global-exporter.js:58 expects | not executed; medium | Monolithic.CjsNamedOnlyBlockEndsDoubled | ExportersBase.NeverEndsInDoubleSemicolon |
| global-exporter.js:60 | the block is appended with no newline, so a trailing line comment in the source comments the exports out | source `var x = 1 // one`, default `Foo` gives `var x = 1 // one;export default Foo;` | a newline before the block, as in src/exporters/base.js:66 | not executed; high | Legacy.LineCommentSwallowsExports | ExportLayout.BlockOnItsOwnLine |
| global-exporter.js:46 | the default statement is pushed even when the default is falsy | `new GlobalExporter('', ['Foo'])` gives `export Foo;\nexport default ;` | a default statement only for a truthy default, as in src/exporters/es6.js:20-22 | not executed; medium | Legacy.FalsyDefaultStillExported | ExportersEs6.BlockLayout |
