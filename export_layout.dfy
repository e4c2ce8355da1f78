/** The layout of the export block. All three exporter implementations
    share the construction rule and `statements.join(';\n') + ';'`; the
    conditional push of the default statement and the semicolon-then-newline
    merge with the source belong to the modular and monolithic versions only
    (the legacy one pushes unconditionally and appends with no newline). */
module ExportLayout {
  import opened JsText

  /** Message of the `Error` thrown by every exporter constructor. */
  const ConstructionMessage := "Must provide either default or named exports, or both."

  /** The JavaScript class an exporter object was created from: the abstract
      base class or one of its two format subclasses. */
  datatype Kind = Base | Es6 | Cjs

  /** The array stored when the `exports` argument is omitted. */
  function ExportsOrEmpty(exports: Option<seq<string>>): (r: seq<string>)
    ensures exports.Some? ==> r == exports.value
    ensures exports.None? ==> r == []
  {
    if exports.Some? then exports.value else []
  }

  /** The constructor's check `defaultExport || exports.length`. */
  predicate Admissible(defaultExport: Option<string>, exports: seq<string>) {
    Truthy(defaultExport) || |exports| > 0
  }

  /** The statements joined into the block: the named statements, then the
      default statement when the renderer returned a truthy one
      (`if (defaultExport) exports.push(defaultExport)`). */
  function PushDefault(named: seq<string>, default: Option<string>): (r: seq<string>)
    ensures |r| == |named| + (if Truthy(default) then 1 else 0)
    ensures r[..|named|] == named
    ensures Truthy(default) ==> r[|named|] == default.value
  {
    if Truthy(default) then named + [default.value] else named
  }

  /** `statements.join(';\n') + ';'`. */
  function Block(statements: seq<string>): (r: string)
    ensures |r| > 0 && r[|r| - 1] == ';'
    ensures statements == [] ==> r == ";"
  {
    Join(statements, ";\n") + ";"
  }

  /** Reference layout: every statement written out followed by `;` and a newline. */
  function Lines(statements: seq<string>): string {
    if statements == [] then "" else statements[0] + ";\n" + Lines(statements[1..])
  }

  lemma {:induction false} LinesAppend(a: seq<string>, b: seq<string>)
    ensures Lines(a + b) == Lines(a) + Lines(b)
  {
    if a == [] {
      assert a + b == b;
    } else {
      assert (a + b)[1..] == a[1..] + b;
      LinesAppend(a[1..], b);
    }
  }

  /** The block followed by a newline is exactly the reference layout: each
      statement, in order, terminated by `;\n`. */
  lemma {:induction false} BlockIsLines(statements: seq<string>)
    requires statements != []
    ensures Block(statements) + "\n" == Lines(statements)
  {
    if |statements| > 1 {
      BlockIsLines(statements[1..]);
    }
  }

  /** Statement `i` sits after the layout of the statements before it and is
      immediately followed by `;\n` (in the block extended by a newline), and
      the statements after it follow in order. */
  lemma BlockAt(statements: seq<string>, i: nat)
    requires i < |statements|
    ensures Block(statements) + "\n"
            == Lines(statements[..i]) + (statements[i] + ";\n") + Lines(statements[i + 1..])
  {
    assert statements == statements[..i] + ([statements[i]] + statements[i + 1..]);
    LinesAppend(statements[..i], [statements[i]] + statements[i + 1..]);
    LinesAppend([statements[i]], statements[i + 1..]);
    BlockIsLines(statements);
  }

  /** The block of named statements plus a pushed default, line by line:
      the named statements in order, then the default statement last. */
  lemma PushDefaultLayout(named: seq<string>, default: Option<string>)
    requires PushDefault(named, default) != []
    ensures Block(PushDefault(named, default)) + "\n"
            == Lines(named) + (if Truthy(default) then default.value + ";\n" else "")
  {
    BlockIsLines(PushDefault(named, default));
    if Truthy(default) {
      LinesAppend(named, [default.value]);
      assert Lines([default.value]) == default.value + ";\n" + Lines([]);
    }
  }

  /** A statement pushed onto the array ends the block: it follows `;\n` when
      other statements precede it and is itself followed by the final `;`. */
  lemma BlockPush(statements: seq<string>, last: string)
    ensures Block(statements + [last])
            == (if statements == [] then "" else Join(statements, ";\n") + ";\n") + last + ";"
  {
    JoinPush(statements, last, ";\n");
  }

  /** `s` ends with `suffix`. */
  predicate EndsWith(s: string, suffix: string) {
    |suffix| <= |s| && s[|s| - |suffix|..] == suffix
  }

  /** `t` occurs in `s` (JavaScript's `s.includes(t)`). */
  predicate Contains(s: string, t: string) {
    exists i :: 0 <= i <= |s| && t <= s[i..]
  }

  lemma ContainsMiddle(a: string, b: string, c: string)
    ensures Contains(a + (b + c), b)
  {
    assert (a + (b + c))[|a|..] == b + c;
  }

  lemma EndsWithRegrouped(a: string, b: string, c: string)
    ensures EndsWith((a + b) + c, b + c)
  {
    assert (a + b) + c == a + (b + c);
  }

  lemma EndsWithTransitive(s: string, u: string, w: string)
    requires EndsWith(s, u) && EndsWith(u, w)
    ensures EndsWith(s, w)
  {
    assert s[|s| - |w|..] == s[|s| - |u|..][|u| - |w|..];
  }

  lemma SliceAcross(a: string, b: string, c: string, n: nat)
    requires n <= |c|
    ensures (a + (b + c))[|a|..|a| + |b| + n] == b + c[..n]
  {
    assert (a + (b + c))[|a|..] == b + c;
    assert (b + c)[..|b| + n] == b + c[..n];
  }

  /** `s` does not end in `;` (the empty string included). */
  predicate NoTrailingSemicolon(s: string) {
    s == [] || s[|s| - 1] != ';'
  }

  /** A block whose last statement does not end in `;` does not end in
      `;;` (an empty last statement leaves `;` alone or `\n;`). */
  lemma BlockNotDoubled(statements: seq<string>)
    requires statements != []
    requires NoTrailingSemicolon(statements[|statements| - 1])
    ensures !EndsWith(Block(statements), ";;")
  {
    var n := |statements|;
    var last := statements[n - 1];
    assert statements[..n - 1] + [last] == statements;
    var b := Block(statements);
    if last != [] {
      BlockEndsWithLast(statements[..n - 1], last);
      assert b[|b| - 2] == (last + ";")[|last| - 1];
    } else if n > 1 {
      BlockPush(statements[..n - 1], last);
      assert b[|b| - 2] == '\n';
    }
  }

  /** The block of an array whose last element is `last` ends with `last;`. */
  lemma BlockEndsWithLast(statements: seq<string>, last: string)
    ensures EndsWith(Block(statements + [last]), last + ";")
  {
    BlockPush(statements, last);
    EndsWithRegrouped(if statements == [] then "" else Join(statements, ";\n") + ";\n", last, ";");
  }

  /** `${sourceCode}\n${exports}` after the semicolon rule: the source is a
      prefix, the block a suffix, and between them only `\n` (the source
      already ended in `;` plus optional whitespace) or `;\n`. */
  function AppendBlock(source: string, block: string): (r: string)
    ensures source <= r
    ensures |r| >= |source| + |block| && r[|r| - |block|..] == block
    ensures r[|source|..|r| - |block|] == if EndsWithSemicolon(source) then "\n" else ";\n"
  {
    var r := SemicolonTerminated(source) + "\n" + block;
    assert r[|r| - |block|..] == block;
    r
  }

  /** The block always starts on a line of its own, so a line comment at the
      end of the source cannot cover it. */
  lemma BlockOnItsOwnLine(source: string, block: string)
    ensures var r := AppendBlock(source, block);
            |r| > |block| && r[|r| - |block| - 1] == '\n'
  {
    var r := AppendBlock(source, block);
    var middle := r[|source|..|r| - |block|];
    assert middle[|middle| - 1] == '\n';
  }

  /** Processing `s` and `s + ";"` gives the same output whenever `s` fails
      the semicolon test. */
  lemma AppendBlockAbsorbsSemicolon(source: string, block: string)
    requires !EndsWithSemicolon(source)
    ensures AppendBlock(source + ";", block) == AppendBlock(source, block)
  {
    SemicolonAbsorbed(source);
  }
}
