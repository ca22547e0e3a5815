/** The fragment of JavaScript semantics the weather client and its React shell
    depend on: JSON-like values, truthiness, property access, `typeof` tests,
    `String.prototype.trim` and `toLowerCase`. */
module Js {

  datatype Option<T> = None | Some(value: T)

  /** How an async call settles: with a value, or by throwing the Error
      described by `error`. */
  datatype Result<T, E> = Ok(value: T) | Err(error: E)

  /** A double as far as the code inspects it: comparisons and `isNaN`. */
  datatype Num = NaN | Finite(r: real) | Infinity(positive: bool)

  /** A JavaScript value as produced by `JSON.parse` or by the UI. Objects are
      lists of (name, value) bindings; `JSON.parse` leaves at most one binding
      per name, and a lookup returns the first one. */
  datatype Value =
    | Undefined
    | Null
    | Bool(b: bool)
    | Number(n: Num)
    | Str(s: string)
    | Arr(items: seq<Value>)
    | Obj(props: seq<(string, Value)>)

  /** What `if (v)` and `!!v` decide. */
  predicate Truthy(v: Value) {
    match v
    case Undefined => false
    case Null => false
    case Bool(b) => b
    case Number(n) => n != NaN && n != Finite(0.0)
    case Str(s) => s != ""
    case Arr(_) => true
    case Obj(_) => true
  }

  /** `typeof v === 'object'` */
  predicate IsObjectType(v: Value) {
    v.Null? || v.Arr? || v.Obj?
  }

  /** The value bound to `name` (the first binding, should there be several), or `undefined`. */
  function Lookup(props: seq<(string, Value)>, name: string): Value {
    if props == [] then Undefined
    else if props[0].0 == name then props[0].1
    else Lookup(props[1..], name)
  }

  /** `v.name` and `v?.name` on a value whose property access cannot throw:
      objects are searched, every other value has no such own property. */
  function Get(v: Value, name: string): (r: Value)
    ensures !v.Obj? ==> r == Undefined
  {
    if v.Obj? then Lookup(v.props, name) else Undefined
  }

  /** `v[0]` on a truthy value. */
  function First(v: Value): (r: Value)
    ensures v.Arr? && v.items != [] ==> r == v.items[0]
    ensures v.Arr? && v.items == [] ==> r == Undefined
    ensures v.Str? && v.s != "" ==> r == Str([v.s[0]])
  {
    match v
    case Arr(items) => if items == [] then Undefined else items[0]
    case Str(s) => if s == "" then Undefined else Str([s[0]])
    case Obj(_) => Get(v, "0")
    case _ => Undefined
  }

  /** `v.length` on a truthy value. */
  function Length(v: Value): (r: Value)
    requires Truthy(v)
    ensures v.Arr? ==> r == Number(Finite(|v.items| as real))
  {
    match v
    case Arr(items) => Number(Finite(|items| as real))
    case Str(s) => Number(Finite(|s| as real))
    case Obj(_) => Get(v, "length")
    case _ => Undefined
  }

  /** The characters `String.prototype.trim` removes: WhiteSpace and
      LineTerminator of ECMAScript, including the Unicode space separators. */
  predicate IsJsWhitespace(c: char) {
    || c == '\t' || c == '\n' || c == '\U{B}' || c == '\U{C}' || c == '\r'
    || c == ' ' || c == '\U{A0}' || c == '\U{1680}'
    || ('\U{2000}' <= c <= '\U{200A}')
    || c == '\U{2028}' || c == '\U{2029}' || c == '\U{202F}' || c == '\U{205F}'
    || c == '\U{3000}' || c == '\U{FEFF}'
  }

  ghost predicate AllWhitespace(s: string) {
    forall k | 0 <= k < |s| :: IsJsWhitespace(s[k])
  }

  /** Neither starts nor ends with whitespace. */
  predicate IsTrimmed(s: string) {
    s == [] || (!IsJsWhitespace(s[0]) && !IsJsWhitespace(s[|s| - 1]))
  }

  /** Where the leading whitespace of `s` ends: every character before the
      index is whitespace, the one at it is not. */
  function TrimStartIndex(s: string): (n: nat)
    ensures n <= |s|
    ensures forall k | 0 <= k < n :: IsJsWhitespace(s[k])
    ensures n < |s| ==> !IsJsWhitespace(s[n])
  {
    if s != [] && IsJsWhitespace(s[0]) then 1 + TrimStartIndex(s[1..]) else 0
  }

  /** Where the trailing whitespace of `s` starts: every character from the
      index on is whitespace, the one before it is not. */
  function TrimEndIndex(s: string): (n: nat)
    ensures n <= |s|
    ensures forall k | n <= k < |s| :: IsJsWhitespace(s[k])
    ensures n > 0 ==> !IsJsWhitespace(s[n - 1])
  {
    if s != [] && IsJsWhitespace(s[|s| - 1]) then TrimEndIndex(s[..|s| - 1]) else |s|
  }

  /** `s.trim()`: the characters between the leading and the trailing
      whitespace; nothing when `s` is all whitespace. */
  function Trim(s: string): string {
    var i := TrimStartIndex(s);
    var j := TrimEndIndex(s);
    if i < j then s[i..j] else []
  }

  /** `s.trim()` is a slice of `s` obtained by dropping whitespace at both ends,
      and it neither starts nor ends with whitespace. */
  lemma TrimIsSlice(s: string)
    ensures exists i, j | 0 <= i <= j <= |s| ::
      Trim(s) == s[i..j] && AllWhitespace(s[..i]) && AllWhitespace(s[j..])
    ensures IsTrimmed(Trim(s))
  {
    var i := TrimStartIndex(s);
    var j := TrimEndIndex(s);
    if i < j {
      assert Trim(s) == s[i..j] && AllWhitespace(s[..i]) && AllWhitespace(s[j..]);
    } else {
      assert Trim(s) == s[i..i] && AllWhitespace(s[..i]) && AllWhitespace(s[i..]);
    }
  }

  /** A string trims to the empty string exactly when it is all whitespace. */
  lemma TrimEmptyIffBlank(s: string)
    ensures Trim(s) == "" <==> AllWhitespace(s)
  {
  }

  /** Trimming twice is trimming once. */
  lemma TrimIdempotent(s: string)
    ensures Trim(Trim(s)) == Trim(s)
  {
    var r := Trim(s);
    if r != [] {
      assert TrimStartIndex(r) == 0;
      assert TrimEndIndex(r) == |r|;
      assert r[0..|r|] == r;
    }
  }

  function LowerAscii(c: char): (d: char)
    ensures 'A' <= c <= 'Z' ==> d != c && 'a' <= d <= 'z'
    ensures !('A' <= c <= 'Z') ==> d == c
  {
    if 'A' <= c <= 'Z' then (c as int - 'A' as int + 'a' as int) as char else c
  }

  /** `s.toLowerCase()` on the ASCII letters; every other character is kept. */
  function ToLower(s: string): (r: string)
    ensures |r| == |s|
    ensures forall k | 0 <= k < |s| :: r[k] == LowerAscii(s[k])
  {
    if s == [] then [] else [LowerAscii(s[0])] + ToLower(s[1..])
  }
}
