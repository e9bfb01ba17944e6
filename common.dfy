/**
 * Small value types and the JavaScript string primitives the application relies on:
 * the whitespace class of regular expressions and String.prototype.trim,
 * String.prototype.includes, String.prototype.startsWith and the UTF-16 `length`.
 */
module Common {

  datatype Option<+T> = None | Some(value: T) {
    function GetOr(default: T): T {
      match this
      case Some(v) => v
      case None => default
    }
  }

  /** The `error ?? value` shape of most calls of the application. */
  datatype Result<+T> = Ok(value: T) | Err(error: string)

  /**
   * One reply of the hosted backend to a write: the call returned without an
   * error, returned an error object, or threw (network failure, client exception).
   */
  datatype Reply = Done | Failed | Threw

  /**
   * ECMAScript WhiteSpace and LineTerminator code points: the `\s` class of a
   * regular expression and the characters `trim` removes.
   */
  predicate IsWhitespace(c: char) {
    || c == '\t' || c == '\n' || c == '\U{000B}' || c == '\U{000C}' || c == '\r'
    || c == ' ' || c == '\U{00A0}' || c == '\U{1680}'
    || ('\U{2000}' <= c <= '\U{200A}')
    || c == '\U{2028}' || c == '\U{2029}' || c == '\U{202F}' || c == '\U{205F}'
    || c == '\U{3000}' || c == '\U{FEFF}'
  }

  predicate AllWhitespace(s: string) {
    forall i :: 0 <= i < |s| ==> IsWhitespace(s[i])
  }

  /** The string with its leading whitespace removed. */
  function TrimStart(s: string): (r: string)
    ensures |r| <= |s| && r == s[|s| - |r|..]
    ensures AllWhitespace(s[..|s| - |r|])
    ensures r == [] || !IsWhitespace(r[0])
  {
    if s == [] || !IsWhitespace(s[0]) then s
    else
      var r := TrimStart(s[1..]);
      assert s[1..][..|s| - 1 - |r|] == s[1..|s| - |r|];
      r
  }

  /** The string with its trailing whitespace removed. */
  function TrimEnd(s: string): (r: string)
    ensures |r| <= |s| && r == s[..|r|]
    ensures AllWhitespace(s[|r|..])
    ensures r == [] || !IsWhitespace(r[|r| - 1])
  {
    if s == [] || !IsWhitespace(s[|s| - 1]) then s
    else
      var r := TrimEnd(s[..|s| - 1]);
      assert s[..|s| - 1][|r|..] == s[|r|..|s| - 1];
      assert s[|r|..] == s[|r|..|s| - 1] + [s[|s| - 1]];
      r
  }

  /** String.prototype.trim. */
  function Trim(s: string): string {
    TrimEnd(TrimStart(s))
  }

  /** `!s.trim()`: the string is empty or made of whitespace only. */
  predicate IsBlank(s: string) {
    AllWhitespace(s)
  }

  /** `IsBlank` agrees with trimming the string and finding it empty. */
  lemma BlankIffTrimEmpty(s: string)
    ensures IsBlank(s) <==> Trim(s) == ""
  {
    var t := TrimStart(s);
    if !AllWhitespace(s) {
      var k :| 0 <= k < |s| && !IsWhitespace(s[k]);
      assert t[k - (|s| - |t|)] == s[k];
    }
  }

  /** Trimming keeps the characters between the first and the last non-whitespace one. */
  lemma TrimIsInfix(s: string)
    ensures exists i, j :: 0 <= i <= j <= |s| && Trim(s) == s[i..j]
                           && AllWhitespace(s[..i]) && AllWhitespace(s[j..])
  {
    var t := TrimStart(s);
    var i := |s| - |t|;
    var j := i + |TrimEnd(t)|;
    assert Trim(s) == s[i..j];
    assert s[j..] == t[|TrimEnd(t)|..];
  }

  /** Removing trailing whitespace keeps a non-whitespace first character. */
  lemma EndKeepsFirst(u: string)
    requires u != [] && !IsWhitespace(u[0])
    ensures TrimEnd(u) != [] && TrimEnd(u)[0] == u[0]
  {
    var t := TrimEnd(u);
    if t != [] {
      assert t[0] == u[..|t|][0];
    }
  }

  /** Removing leading whitespace from a non-blank text leaves it starting with a non-whitespace character. */
  lemma StartKeepsNonBlank(s: string)
    requires !IsBlank(s)
    ensures TrimStart(s) != [] && !IsWhitespace(TrimStart(s)[0])
  {
    var u := TrimStart(s);
    var k :| 0 <= k < |s| && !IsWhitespace(s[k]);
    var n := |s| - |u|;
    assert u[k - n] == s[k];
  }

  /** The length of a JavaScript string: UTF-16 code units, two for a code point above U+FFFF. */
  function JsLength(s: string): (n: nat)
    ensures |s| <= n <= 2 * |s|
    ensures (forall i :: 0 <= i < |s| ==> s[i] as int <= 0xFFFF) ==> n == |s|
  {
    if s == [] then 0
    else (if s[0] as int > 0xFFFF then 2 else 1) + JsLength(s[1..])
  }

  /** One code unit for a character of the Basic Multilingual Plane, a surrogate pair above it. */
  lemma JsLengthOfChar(c: char)
    ensures JsLength([c]) == if c as int > 0xFFFF then 2 else 1
  {
  }

  /** The length of a concatenation is the sum of the lengths. */
  lemma {:induction false} JsLengthConcat(a: string, b: string)
    ensures JsLength(a + b) == JsLength(a) + JsLength(b)
  {
    if a == [] {
      assert a + b == b;
    } else {
      assert (a + b)[1..] == a[1..] + b;
      JsLengthConcat(a[1..], b);
    }
  }

  lemma JsLengthZeroIffEmpty(s: string)
    ensures JsLength(s) == 0 <==> s == ""
  {
  }

  /** A string value that is truthy: present (not undefined or null) and not empty. */
  predicate Filled(v: Option<string>) {
    v.Some? && v.value != ""
  }

  /** String.prototype.startsWith. */
  predicate StartsWith(s: string, prefix: string) {
    prefix <= s
  }

  /** String.prototype.includes: `sub` occurs somewhere in `s`. */
  predicate Includes(s: string, sub: string) {
    exists i :: 0 <= i <= |s| - |sub| && StartsWith(s[i..], sub)
  }

  /** Some element of `routes` is a prefix of `path` (`routes.some(r => path.startsWith(r))`). */
  predicate AnyPrefix(routes: seq<string>, path: string) {
    exists i :: 0 <= i < |routes| && StartsWith(path, routes[i])
  }
}
