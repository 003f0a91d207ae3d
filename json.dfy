/** JavaScript values as the assistant route sees them: JSON data read from a
    request or a response body, the `undefined` that optional chaining yields,
    and the few built-in operations the route applies to them (truthiness,
    `??`, `||`, `String(...)`, `JSON.stringify`, `trim`, `startsWith`,
    `includes`). */
module JsValues {

  datatype Option<+T> = None | Some(value: T)

  /** The outcome of a computation that may throw; `Throws` carries the
      exception's `message`. */
  datatype Result<+T> = Ok(value: T) | Throws(message: string)

  /** A JSON value as `JSON.parse` leaves it. Numbers are integers. The field
      list of an object is in the object's own enumeration order; a parsed
      object names each key once, and `Lookup` reads the first field of a
      name. */
  datatype Json =
    | JNull
    | JBool(b: bool)
    | JNum(n: int)
    | JStr(s: string)
    | JArr(items: seq<Json>)
    | JObj(fields: seq<(string, Json)>)

  /** A JavaScript value that may be `undefined` (represented by `None`). */
  type Value = Option<Json>

  /** The property `key` of an object's field list, or undefined. */
  function Lookup(fields: seq<(string, Json)>, key: string): (v: Value)
    ensures v.Some? <==> exists i :: 0 <= i < |fields| && fields[i].0 == key
    ensures v.Some? ==> (key, v.value) in fields
  {
    if fields == [] then None
    else if fields[0].0 == key then Some(fields[0].1)
    else
      var rest := Lookup(fields[1..], key);
      assert forall i :: 1 <= i < |fields| ==> fields[i] == fields[1..][i - 1];
      rest
  }

  /** `v?.key`. Only objects have the properties read by the route; on every
      other value (and on null or undefined) the result is undefined. */
  function Get(v: Value, key: string): (r: Value)
    ensures r.Some? ==> v.Some? && v.value.JObj? && (key, r.value) in v.value.fields
    ensures v.Some? && v.value.JObj? ==> r == Lookup(v.value.fields, key)
  {
    match v
    case Some(JObj(fields)) => Lookup(fields, key)
    case _ => None
  }

  /** `v?.[i]` for a numeric index: an array element, an object property
      named by the index's decimal digits, or a one-character string. */
  function At(v: Value, i: nat): (r: Value)
    ensures v.Some? && v.value.JArr? ==> r == (if i < |v.value.items| then Some(v.value.items[i]) else None)
    ensures v.None? || v == Some(JNull) ==> r.None?
  {
    match v
    case Some(JArr(items)) => if i < |items| then Some(items[i]) else None
    case Some(JObj(fields)) => Lookup(fields, NatText(i))
    case Some(JStr(s)) => if i < |s| then Some(JStr([s[i]])) else None
    case _ => None
  }

  /** JavaScript truthiness, the test behind `if (v)`, `!v` and `v || w`.
      No nullish value is truthy. */
  predicate Truthy(v: Value)
    ensures Truthy(v) ==> !Nullish(v)
  {
    match v
    case None => false
    case Some(JNull) => false
    case Some(JBool(b)) => b
    case Some(JNum(n)) => n != 0
    case Some(JStr(s)) => s != ""
    case Some(JArr(_)) => true
    case Some(JObj(_)) => true
  }

  /** The test behind `v ?? w`: null or undefined. */
  predicate Nullish(v: Value) {
    v.None? || v == Some(JNull)
  }

  /** `a ?? b`: the result is nullish only when both operands are, and a
      non-nullish left operand is kept, even when it is falsy. */
  function Coalesce(a: Value, b: Value): (r: Value)
    ensures Nullish(r) <==> Nullish(a) && Nullish(b)
    ensures !Nullish(a) ==> r == a
    ensures Nullish(a) ==> r == b
  {
    if Nullish(a) then b else a
  }

  /** `a || b`: the result is truthy when either operand is, and a truthy
      left operand is kept. */
  function Or(a: Value, b: Value): (r: Value)
    ensures Truthy(r) <==> Truthy(a) || Truthy(b)
    ensures Truthy(a) ==> r == a
    ensures !Truthy(a) ==> r == b
  {
    if Truthy(a) then a else b
  }

  /** `||` and `??` agree except on the three falsy values that are not
      nullish: `false`, `0` and `""`, where `??` keeps the left operand and
      `||` moves on to the right one. */
  lemma OrCoalesceDiffer(a: Value, b: Value)
    ensures Truthy(a) ==> Or(a, b) == a && Coalesce(a, b) == a
    ensures Nullish(a) ==> Or(a, b) == b && Coalesce(a, b) == b
    ensures !Truthy(a) && !Nullish(a) <==> a == Some(JBool(false)) || a == Some(JNum(0)) || a == Some(JStr(""))
    ensures !Truthy(a) && !Nullish(a) ==> Coalesce(a, b) == a && Or(a, b) == b
  {
  }

  // ----- strings -----

  /** `s.startsWith(p)`. */
  predicate StartsWith(s: string, p: string) {
    |p| <= |s| && s[..|p|] == p
  }

  /** `s.includes(p)`. */
  predicate Contains(s: string, p: string)
    decreases |s|
  {
    StartsWith(s, p) || (s != [] && Contains(s[1..], p))
  }

  /** `s.includes(p)` holds exactly when `p` occurs in `s` at some offset. */
  lemma {:induction false} ContainsIff(s: string, p: string)
    ensures Contains(s, p) <==> exists i :: 0 <= i <= |s| - |p| && StartsWith(s[i..], p)
  {
    assert s[0..] == s;
    if s != [] {
      ContainsIff(s[1..], p);
      assert forall i :: 1 <= i <= |s| ==> s[1..][i - 1..] == s[i..];
      if Contains(s[1..], p) {
        var i :| 0 <= i <= |s[1..]| - |p| && StartsWith(s[1..][i..], p);
        assert StartsWith(s[i + 1..], p);
      }
      if i :| 0 <= i <= |s| - |p| && StartsWith(s[i..], p) {
        if i > 0 {
          assert StartsWith(s[1..][i - 1..], p);
        }
      }
    }
  }

  /** A character `String.prototype.trim` removes: the ECMAScript WhiteSpace
      and LineTerminator characters. */
  predicate IsJsSpace(c: char) {
    c == '\t' || c == '\n' || c == '\U{000B}' || c == '\U{000C}' || c == '\r' || c == ' '
    || c == '\U{00A0}' || c == '\U{1680}' || ('\U{2000}' <= c <= '\U{200A}')
    || c == '\U{2028}' || c == '\U{2029}' || c == '\U{202F}' || c == '\U{205F}'
    || c == '\U{3000}' || c == '\U{FEFF}'
  }

  /** The number of white-space characters `s` starts with. */
  function LeadingSpaces(s: string): (k: nat)
    ensures k <= |s|
    ensures forall i :: 0 <= i < k ==> IsJsSpace(s[i])
    ensures k < |s| ==> !IsJsSpace(s[k])
  {
    if s != [] && IsJsSpace(s[0]) then 1 + LeadingSpaces(s[1..]) else 0
  }

  /** The number of white-space characters `s` ends with. */
  function TrailingSpaces(s: string): (k: nat)
    ensures k <= |s|
    ensures forall i :: |s| - k <= i < |s| ==> IsJsSpace(s[i])
    ensures k < |s| ==> !IsJsSpace(s[|s| - k - 1])
  {
    if s != [] && IsJsSpace(s[|s| - 1]) then 1 + TrailingSpaces(s[..|s| - 1]) else 0
  }

  /** `s.trim()`: the part of `s` after its leading and before its trailing
      white space, which neither starts nor ends with white space. */
  function Trim(s: string): (t: string)
    ensures LeadingSpaces(s) + |t| <= |s|
    ensures t == s[LeadingSpaces(s)..LeadingSpaces(s) + |t|]
    ensures forall i :: LeadingSpaces(s) + |t| <= i < |s| ==> IsJsSpace(s[i])
    ensures t != [] ==> !IsJsSpace(t[0]) && !IsJsSpace(t[|t| - 1])
  {
    var k := LeadingSpaces(s);
    var u := s[k..];
    var t := u[..|u| - TrailingSpaces(u)];
    assert forall i :: k + |t| <= i < |s| ==> s[i] == u[i - k];
    t
  }

  /** `s.trim()` is empty exactly when every character of `s` is white space. */
  lemma TrimEmptyIff(s: string)
    ensures Trim(s) == [] <==> forall i :: 0 <= i < |s| ==> IsJsSpace(s[i])
  {
  }

  // ----- number formatting -----

  function Digit(d: nat): (c: char)
    requires d < 10
    ensures '0' <= c <= '9'
  {
    "0123456789"[d]
  }

  /** The decimal digits of `n`, without leading zeros. */
  function NatText(n: nat): (s: string)
    ensures s != [] && forall i :: 0 <= i < |s| ==> '0' <= s[i] <= '9'
    ensures |s| > 1 ==> s[0] != '0'
  {
    if n < 10 then [Digit(n)] else NatText(n / 10) + [Digit(n % 10)]
  }

  /** `Number.prototype.toString()` of an integer. */
  function IntText(n: int): (s: string)
    ensures s != []
    ensures (s[0] == '-') <==> n < 0
  {
    if n < 0 then "-" + NatText(-n) else NatText(n)
  }

  /** The elements of `parts` with `sep` between each two. */
  function Join(parts: seq<string>, sep: string): (s: string)
    ensures |parts| == 1 ==> s == parts[0]
  {
    if |parts| == 0 then ""
    else if |parts| == 1 then parts[0]
    else parts[0] + sep + Join(parts[1..], sep)
  }

  // ----- String(v) -----

  /** `String(v)`: "undefined" for undefined, a string itself for a string. */
  function ToText(v: Value): (t: string)
    ensures v.None? ==> t == "undefined"
    ensures v.Some? && v.value.JStr? ==> t == v.value.s
  {
    match v
    case None => "undefined"
    case Some(j) => JsonText(j)
  }

  /** `String(j)` for a JSON value. An array is its elements' strings joined
      by commas, null elements giving the empty string; every object gives
      `[object Object]`. */
  function JsonText(j: Json): (t: string)
    decreases j
    ensures j.JStr? ==> t == j.s
    ensures j.JObj? ==> t == "[object Object]"
    ensures j.JNull? ==> t == "null"
    ensures j.JArr? && |j.items| == 1 && j.items[0].JStr? ==> t == j.items[0].s
    ensures j.JArr? && |j.items| == 0 ==> t == ""
  {
    match j
    case JNull => "null"
    case JBool(b) => if b then "true" else "false"
    case JNum(n) => IntText(n)
    case JStr(s) => s
    case JObj(_) => "[object Object]"
    case JArr(items) =>
      Join(seq(|items|, i requires 0 <= i < |items| =>
        if items[i] == JNull then "" else JsonText(items[i])), ",")
  }

  // ----- JSON.stringify -----

  function HexDigit(d: nat): char
    requires d < 16
  {
    "0123456789abcdef"[d]
  }

  /** How `JSON.stringify` writes one character inside a string literal. */
  function EscapeChar(c: char): (e: string)
    ensures e != []
    ensures e == [c] || e[0] == '\\'
  {
    if c == '"' then "\\\""
    else if c == '\\' then "\\\\"
    else if c == '\U{0008}' then "\\b"
    else if c == '\U{000C}' then "\\f"
    else if c == '\n' then "\\n"
    else if c == '\r' then "\\r"
    else if c == '\t' then "\\t"
    else if c < ' ' then "\\u00" + [HexDigit(c as int / 16), HexDigit(c as int % 16)]
    else [c]
  }

  function Escape(s: string): (e: string)
    ensures |e| >= |s|
    ensures (forall i :: 0 <= i < |s| ==> EscapeChar(s[i]) == [s[i]]) ==> e == s
  {
    if s == [] then [] else EscapeChar(s[0]) + Escape(s[1..])
  }

  /** A JSON string literal for `s`. */
  function Quote(s: string): (q: string)
    ensures |q| >= 2 && q[0] == '"' && q[|q| - 1] == '"'
  {
    "\"" + Escape(s) + "\""
  }

  /** `JSON.stringify(j)` for a JSON value: never an empty string, because
      every value begins with a literal, a digit, a sign, a quote or a
      bracket. */
  function Stringify(j: Json): (s: string)
    decreases j
    ensures s != []
    ensures j.JStr? ==> s == Quote(j.s)
    ensures j.JArr? ==> s[0] == '[' && s[|s| - 1] == ']'
    ensures j.JObj? ==> s[0] == '{' && s[|s| - 1] == '}'
  {
    match j
    case JNull => "null"
    case JBool(b) => if b then "true" else "false"
    case JNum(n) => IntText(n)
    case JStr(s) => Quote(s)
    case JArr(items) =>
      "[" + Join(seq(|items|, i requires 0 <= i < |items| => Stringify(items[i])), ",") + "]"
    case JObj(fields) =>
      "{" + Join(seq(|fields|, i requires 0 <= i < |fields| =>
        Quote(fields[i].0) + ":" + Stringify(fields[i].1)), ",") + "}"
  }
}
