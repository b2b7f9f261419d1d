/** Values and string helpers of the JavaScript runtime that the site's code relies on. */
module JsValues {

  /** A value that may be absent (`undefined`/`null` in the source). */
  datatype Option<+T> = None | Some(value: T)

  /** The characters matched by JavaScript's `\s` class and removed by `String.prototype.trim`:
      the WhiteSpace and LineTerminator productions of ECMAScript. */
  predicate IsWhitespace(c: char) {
    c == '\t' || c == '\n' || c == '\U{000B}' || c == '\U{000C}' || c == '\r' || c == ' '
    || c == '\U{00A0}' || c == '\U{1680}' || ('\U{2000}' <= c <= '\U{200A}')
    || c == '\U{2028}' || c == '\U{2029}' || c == '\U{202F}' || c == '\U{205F}'
    || c == '\U{3000}' || c == '\U{FEFF}'
  }

  predicate AllWhitespace(s: string) {
    forall i :: 0 <= i < |s| ==> IsWhitespace(s[i])
  }

  /** `s.trimStart()`. */
  function TrimStart(s: string): (r: string)
    ensures |r| <= |s| && r == s[|s| - |r|..]
    ensures r == [] || !IsWhitespace(r[0])
    ensures AllWhitespace(s[..|s| - |r|])
  {
    if s == [] || !IsWhitespace(s[0]) then s
    else
      var r := TrimStart(s[1..]);
      assert s[1..][..|s| - 1 - |r|] == s[1..|s| - |r|];
      r
  }

  /** `s.trimEnd()`. */
  function TrimEnd(s: string): (r: string)
    ensures |r| <= |s| && r == s[..|r|]
    ensures r == [] || !IsWhitespace(r[|r| - 1])
    ensures AllWhitespace(s[|r|..])
  {
    if s == [] || !IsWhitespace(s[|s| - 1]) then s
    else
      var r := TrimEnd(s[..|s| - 1]);
      assert s[..|s| - 1][|r|..] == s[|r|..|s| - 1];
      r
  }

  /** `s.trim()`: both ends stripped of white space. */
  function Trim(s: string): string {
    TrimEnd(TrimStart(s))
  }

  /** `s.trim()` is empty (falsy) exactly when every character of `s` is white space. */
  lemma {:induction false} TrimEmptyIffBlank(s: string)
    ensures Trim(s) == [] <==> AllWhitespace(s)
  {
    var t := TrimStart(s);
    if Trim(s) == [] {
      assert AllWhitespace(t[0..]);
      assert t == [];
      assert s == s[..|s| - |t|];
    } else {
      var k := |s| - |t|;
      assert t != [] && !IsWhitespace(t[0]);
      assert s[k] == t[0];
    }
  }

  /** JavaScript truthiness of a string field that may be missing: `!value` holds for
      `undefined` and for the empty string. */
  predicate IsFalsyString(v: Option<string>) {
    v.None? || v.value == ""
  }

  /** A stream of `Math.random()` draws: the `n`-th call returns `rand(n)`, which lies in [0, 1). */
  ghost predicate UnitStream(rand: nat -> real) {
    forall n :: 0.0 <= rand(n) < 1.0
  }
}
