/*
 * The slice of JavaScript semantics that the submission handler and the
 * generator component depend on: JSON-shaped values with `undefined`,
 * truthiness and `||`, property reads (plain and optional-chained), thrown
 * values, and String.prototype.trim.
 */
module Js {

  datatype Option<+T> = None | Some(value: T)

  /** A JavaScript value as produced by JSON.parse, plus `undefined`.
      Numbers are integers; objects map property names to values. */
  datatype Value =
    | Undefined
    | Null
    | Bool(b: bool)
    | Num(n: int)
    | Str(s: string)
    | Arr(items: seq<Value>)
    | Obj(props: map<string, Value>)

  /** What a `throw` carries: an Error object with its message, or anything else. */
  datatype Thrown = ErrorObject(message: string) | NonError

  /** The outcome of an evaluation that may throw. */
  datatype Result<+T> = Ok(value: T) | Throw(thrown: Thrown)

  /** The parts of the runtime the model does not define itself: JSON.parse
      (which throws a SyntaxError on bad text), JSON.stringify on a defined
      value, and the message of the TypeError raised when a named property is
      read from null or undefined or a non-function is called. */
  datatype Engine = Engine(
    parse: string -> Result<Value>,
    stringify: Value -> string,
    typeErrorMessage: string -> string)

  predicate Nullish(v: Value) {
    v.Undefined? || v.Null?
  }

  /** JavaScript's ToBoolean. */
  predicate Truthy(v: Value) {
    match v
    case Undefined => false
    case Null => false
    case Bool(b) => b
    case Num(n) => n != 0
    case Str(s) => s != ""
    case Arr(_) => true
    case Obj(_) => true
  }

  /** `a || b` */
  function Or(a: Value, b: Value): Value {
    if Truthy(a) then a else b
  }

  /** `v?.key`: undefined on a nullish value, and on a non-object (none of the
      property names read here exist on strings, numbers, booleans or arrays). */
  function OptGet(v: Value, key: string): Value {
    match v
    case Obj(m) => if key in m then m[key] else Undefined
    case _ => Undefined
  }

  /** `JSON.stringify(v) || fallback`: stringify yields undefined for undefined. */
  function StringifyOr(v: Value, fallback: string, js: Engine): string {
    if v.Undefined? then fallback
    else if js.stringify(v) == "" then fallback
    else js.stringify(v)
  }

  /** `error instanceof Error ? error.message : fallback` */
  function Message(t: Thrown, fallback: string): string {
    match t
    case ErrorObject(m) => m
    case NonError => fallback
  }

  /** WhiteSpace and LineTerminator code points of ECMAScript, the set trim() strips. */
  predicate IsWhitespace(c: char) {
    || c == '\t' || c == '\n' || c == '\U{000B}' || c == '\U{000C}' || c == '\r'
    || c == ' ' || c == '\U{00A0}' || c == '\U{1680}'
    || ('\U{2000}' <= c <= '\U{200A}')
    || c == '\U{2028}' || c == '\U{2029}' || c == '\U{202F}' || c == '\U{205F}'
    || c == '\U{3000}' || c == '\U{FEFF}'
  }

  predicate AllWhitespace(s: string) {
    forall i :: 0 <= i < |s| ==> IsWhitespace(s[i])
  }

  /** Drops the leading whitespace: the result is the longest suffix not starting with whitespace. */
  function TrimStart(s: string): (r: string)
    ensures |r| <= |s| && r == s[|s| - |r|..]
    ensures AllWhitespace(s[..|s| - |r|])
    ensures r == [] || !IsWhitespace(r[0])
  {
    if s != [] && IsWhitespace(s[0]) then TrimStart(s[1..]) else s
  }

  /** Drops the trailing whitespace: the result is the longest prefix not ending with whitespace. */
  function TrimEnd(s: string): (r: string)
    ensures |r| <= |s| && r == s[..|r|]
    ensures AllWhitespace(s[|r|..])
    ensures r == [] || !IsWhitespace(r[|r| - 1])
  {
    if s != [] && IsWhitespace(s[|s| - 1]) then TrimEnd(s[..|s| - 1]) else s
  }

  /** String.prototype.trim */
  function Trim(s: string): (r: string)
    ensures |r| <= |s|
    // the result is a slice of s with only whitespace cut off either side
    ensures exists i :: Trimmed(s, i, r)
    ensures r == [] <==> AllWhitespace(s)
    ensures r != [] ==> !IsWhitespace(r[0]) && !IsWhitespace(r[|r| - 1])
  {
    TrimBlankIffWhitespace(s);
    TrimCutsEnds(s);
    TrimEnd(TrimStart(s))
  }

  /** r is s with i whitespace characters cut from the front and only whitespace cut from the back. */
  predicate Trimmed(s: string, i: int, r: string) {
    0 <= i <= |s| - |r| && r == s[i..i + |r|] && AllWhitespace(s[..i]) && AllWhitespace(s[i + |r|..])
  }

  lemma TrimCutsEnds(s: string)
    ensures Trimmed(s, |s| - |TrimStart(s)|, TrimEnd(TrimStart(s)))
  {
    var t := TrimStart(s);
    CutBothEnds(s, |s| - |t|, t, TrimEnd(t));
  }

  /** Cutting a whitespace prefix and then a whitespace suffix leaves a trimmed slice. */
  lemma CutBothEnds(s: string, i: int, t: string, r: string)
    requires 0 <= i <= |s| && t == s[i..] && AllWhitespace(s[..i])
    requires |r| <= |t| && r == t[..|r|] && AllWhitespace(t[|r|..])
    ensures Trimmed(s, i, r)
  {
    assert s[i + |r|..] == t[|r|..];
    assert r == s[i..i + |r|];
  }

  lemma TrimBlankIffWhitespace(s: string)
    ensures TrimEnd(TrimStart(s)) == [] <==> AllWhitespace(s)
  {
    var t := TrimStart(s);
    TrimCutsEnds(s);
    TrimmedBlankIffWhitespace(s, |s| - |t|, TrimEnd(t));
  }

  /** A trimmed slice that does not start with whitespace is empty exactly when s is all whitespace. */
  lemma TrimmedBlankIffWhitespace(s: string, i: int, r: string)
    requires Trimmed(s, i, r) && (r == [] || !IsWhitespace(r[0]))
    ensures r == [] <==> AllWhitespace(s)
  {
    if r == [] {
      forall j | 0 <= j < |s| ensures IsWhitespace(s[j]) {
        if j < i { assert s[j] == s[..i][j]; } else { assert s[j] == s[i..][j - i]; }
      }
    } else {
      assert s[i] == r[0];
    }
  }

  /** `!s.trim()`: nothing but whitespace (BlankIsTrimmedEmpty ties the two). */
  predicate IsBlank(s: string) {
    AllWhitespace(s)
  }

  lemma BlankIsTrimmedEmpty(s: string)
    ensures IsBlank(s) <==> Trim(s) == ""
  {
  }
}
