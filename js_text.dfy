/** JavaScript semantics the exporters rely on: values that are either
    `undefined` or a string and their truthiness, thrown errors,
    `Array.prototype.join`, and the regular expression `/;\s*$/` that decides
    whether source code already ends in a semicolon. */
module JsText {

  datatype Option<+T> = None | Some(value: T)

  datatype Result<+T, +E> = Success(value: T) | Failure(error: E)

  /** An exception raised by `throw new Error(m)` or `throw new TypeError(m)`. */
  datatype Thrown = Error(message: string) | TypeError(message: string)

  /** Truthiness of a value that is `undefined` (None) or a string:
      `undefined` and `""` are falsy, every other string is truthy. */
  predicate Truthy(v: Option<string>) {
    v.Some? && v.value != ""
  }

  /** `parts.join(sep)` for an array of strings. */
  function Join(parts: seq<string>, sep: string): string {
    if |parts| == 0 then ""
    else if |parts| == 1 then parts[0]
    else parts[0] + sep + Join(parts[1..], sep)
  }

  /** Pushing one more element onto an array appends `sep` and that element
      to its join (nothing is inserted when the array was empty). */
  lemma {:induction false} JoinPush(parts: seq<string>, x: string, sep: string)
    ensures Join(parts + [x], sep) == if parts == [] then x else Join(parts, sep) + sep + x
  {
    if |parts| == 1 {
      assert (parts + [x])[1..] == [x];
    } else if |parts| > 1 {
      assert (parts + [x])[1..] == parts[1..] + [x];
      JoinPush(parts[1..], x, sep);
    }
  }

  /** The ECMAScript `\s` class: the WhiteSpace code points (TAB, VT, FF,
      ZWNBSP and the Unicode space separators) and the LineTerminator code
      points (LF, CR, LS, PS). */
  predicate IsWhitespace(c: char) {
    c == '\t' || c == '\n' || c == '\U{000B}' || c == '\U{000C}' || c == '\r'
    || c == ' ' || c == '\U{00A0}' || c == '\U{1680}'
    || ('\U{2000}' <= c <= '\U{200A}')
    || c == '\U{2028}' || c == '\U{2029}' || c == '\U{202F}' || c == '\U{205F}'
    || c == '\U{3000}' || c == '\U{FEFF}'
  }

  predicate AllWhitespace(s: string) {
    forall i :: 0 <= i < |s| ==> IsWhitespace(s[i])
  }

  /** `/;\s*$/.test(s)`: some position holds `;` and only whitespace follows
      it up to the end of the string (no multiline flag, so `$` is the end). */
  predicate EndsWithSemicolon(s: string) {
    exists k :: 0 <= k < |s| && s[k] == ';' && AllWhitespace(s[k + 1..])
  }

  /** `s` with its trailing whitespace removed. */
  function TrimEnd(s: string): (r: string)
    ensures r <= s
    ensures AllWhitespace(s[|r|..])
    ensures r == [] || !IsWhitespace(r[|r| - 1])
  {
    if |s| > 0 && IsWhitespace(s[|s| - 1]) then
      var r := TrimEnd(s[..|s| - 1]);
      assert s[|r|..] == s[..|s| - 1][|r|..] + [s[|s| - 1]];
      r
    else
      s
  }

  /** A `;` followed only by whitespace is the last character `TrimEnd` keeps. */
  lemma SemicolonWitnessIsLast(s: string, k: int)
    requires 0 <= k < |s| && s[k] == ';' && AllWhitespace(s[k + 1..])
    ensures k == |TrimEnd(s)| - 1
  {
    var r := TrimEnd(s);
    var n := |r|;
    forall j | n <= j < |s|
      ensures IsWhitespace(s[j])
    {
      assert s[n..][j - n] == s[j];
    }
    forall j | k < j < |s|
      ensures IsWhitespace(s[j])
    {
      assert s[k + 1..][j - k - 1] == s[j];
    }
    assert n > 0 ==> r[n - 1] == s[n - 1];
  }

  /** The regular expression agrees with the reading given beside it in the
      source: the last non-whitespace character is a semicolon. */
  lemma EndsWithSemicolonIsLastNonWhitespace(s: string)
    ensures EndsWithSemicolon(s) <==> (TrimEnd(s) != [] && TrimEnd(s)[|TrimEnd(s)| - 1] == ';')
  {
    var r := TrimEnd(s);
    var n := |r|;
    if n > 0 && r[n - 1] == ';' {
      assert s[n..] == s[n - 1 + 1..];
      assert s[n - 1] == ';';
    }
    if EndsWithSemicolon(s) {
      var k :| 0 <= k < |s| && s[k] == ';' && AllWhitespace(s[k + 1..]);
      SemicolonWitnessIsLast(s, k);
    }
  }

  /** Whitespace appended after the last statement never changes the test. */
  lemma {:induction false} TrimEndIgnoresWhitespace(s: string, w: string)
    requires AllWhitespace(w)
    ensures TrimEnd(s + w) == TrimEnd(s)
    decreases |w|
  {
    if |w| > 0 {
      assert (s + w)[..|s + w| - 1] == s + w[..|w| - 1];
      TrimEndIgnoresWhitespace(s, w[..|w| - 1]);
    } else {
      assert s + w == s;
    }
  }

  lemma TrailingWhitespaceIrrelevant(s: string, w: string)
    requires AllWhitespace(w)
    ensures EndsWithSemicolon(s + w) <==> EndsWithSemicolon(s)
  {
    TrimEndIgnoresWhitespace(s, w);
    EndsWithSemicolonIsLastNonWhitespace(s);
    EndsWithSemicolonIsLastNonWhitespace(s + w);
  }

  /** The source after `if (!/;\s*$/.test(s)) s += ';'`: it always passes the
      test afterwards, and it changed (by one trailing `;`) only if it failed it. */
  function SemicolonTerminated(s: string): (r: string)
    ensures EndsWithSemicolon(r)
    ensures s <= r && |r| <= |s| + 1
    ensures r == s <==> EndsWithSemicolon(s)
    ensures r != s ==> r[|s|] == ';'
  {
    if EndsWithSemicolon(s) then s
    else
      assert (s + ";")[|s|] == ';' && (s + ";")[|s| + 1..] == [];
      s + ";"
  }

  /** Supplying the missing semicolon yourself gives the same source:
      normalising `s` and `s + ";"` agree whenever `s` fails the test. */
  lemma SemicolonAbsorbed(s: string)
    requires !EndsWithSemicolon(s)
    ensures SemicolonTerminated(s + ";") == SemicolonTerminated(s)
  {
  }

  lemma SemicolonTerminatedIdempotent(s: string)
    ensures SemicolonTerminated(SemicolonTerminated(s)) == SemicolonTerminated(s)
  {
  }
}
