/**
 * Dynamically typed values as the survey runtime and the reporting code see
 * them: raw answers, variable-bag entries and option values decoded from
 * JSON. Numbers are modelled as integers; `undefined` is never a stored
 * value and stands for an absent key (an `Option` that is `None`).
 */
module JsValues {

  datatype Option<T> = None | Some(value: T)

  /** The outcome of an operation that may throw. */
  datatype Result<T> = Ok(value: T) | Err(message: string)

  /** A JSON value. Object fields keep their insertion order. */
  datatype Value =
    | VNull
    | VBool(b: bool)
    | VNum(n: int)
    | VStr(s: string)
    | VList(items: seq<Value>)
    | VObj(fields: seq<(string, Value)>)

  /** JavaScript truthiness (`!!v`). */
  predicate Truthy(v: Value)
  {
    match v
    case VNull => false
    case VBool(b) => b
    case VNum(n) => n != 0
    case VStr(s) => s != ""
    case VList(_) => true
    case VObj(_) => true
  }

  /** Truthiness of a possibly absent value (`undefined` is falsy). */
  predicate TruthyOpt(v: Option<Value>)
  {
    v.Some? && Truthy(v.value)
  }

  /** A present, non-empty string: a truthy string field. */
  predicate NonEmpty(s: Option<string>)
  {
    s.Some? && s.value != ""
  }

  /** `x || fallback` for an optional string. */
  function OrElse(x: Option<string>, fallback: string): string
  {
    if NonEmpty(x) then x.value else fallback
  }

  /** `x || y` for two optional strings. */
  function Either(x: Option<string>, y: Option<string>): Option<string>
  {
    if NonEmpty(x) then x else y
  }

  predicate IsPrimitive(v: Value)
  {
    !v.VList? && !v.VObj?
  }

  /**
   * `a === b`. Lists and objects are compared by reference in JavaScript; an
   * answer decoded from a request and a value written in the configuration
   * are never the same reference, so they never compare equal here.
   */
  predicate StrictEq(a: Value, b: Value)
  {
    match (a, b)
    case (VNull, VNull) => true
    case (VBool(x), VBool(y)) => x == y
    case (VNum(x), VNum(y)) => x == y
    case (VStr(x), VStr(y)) => x == y
    case _ => false
  }

  lemma StrictEqIsPrimitiveEquality(a: Value, b: Value)
    ensures StrictEq(a, b) <==> IsPrimitive(a) && a == b
  {
  }

  /** `xs.includes(x)` */
  predicate Includes(xs: seq<Value>, x: Value)
  {
    exists i :: 0 <= i < |xs| && StrictEq(xs[i], x)
  }

  /** `xs.includes("<s>")` */
  predicate IncludesStr(xs: seq<Value>, s: string)
  {
    VStr(s) in xs
  }

  lemma IncludesStrIsIncludes(xs: seq<Value>, s: string)
    ensures IncludesStr(xs, s) <==> Includes(xs, VStr(s))
  {
    if IncludesStr(xs, s) {
      var i :| 0 <= i < |xs| && xs[i] == VStr(s);
      assert StrictEq(xs[i], VStr(s));
    }
  }

  /**
   * Property lookup on a decoded object: as JSON.parse keeps the last of two
   * equal keys, the last matching entry wins.
   */
  function Get<V>(fields: seq<(string, V)>, key: string): (r: Option<V>)
    ensures r.None? <==> forall i :: 0 <= i < |fields| ==> fields[i].0 != key
    ensures r.Some? ==> exists i :: 0 <= i < |fields| && fields[i] == (key, r.value) &&
                          forall j :: i < j < |fields| ==> fields[j].0 != key
  {
    if |fields| == 0 then None
    else if fields[|fields| - 1].0 == key then Some(fields[|fields| - 1].1)
    else Get(fields[..|fields| - 1], key)
  }

  /** `v.key` : only objects have properties of their own here. */
  function Field(v: Value, key: string): Option<Value>
  {
    if v.VObj? then Get(v.fields, key) else None
  }

  /** `typeof v === "object" && v !== null` (arrays are objects too). */
  predicate IsObjectLike(v: Value)
  {
    v.VList? || v.VObj?
  }

  // ---------------------------------------------------------------------
  // Decimal numerals

  function DigitChar(d: nat): char
    requires d < 10
  {
    "0123456789"[d]
  }

  predicate IsDigit(c: char)
  {
    '0' <= c <= '9'
  }

  function DigitValue(c: char): nat
    requires IsDigit(c)
  {
    (c as int - '0' as int) as nat
  }

  /** Decimal numeral of a natural number, without leading zeros. */
  function NatToString(n: nat): (s: string)
    ensures |s| > 0
    ensures forall i :: 0 <= i < |s| ==> IsDigit(s[i])
    ensures n > 0 ==> s[0] != '0'
    decreases n
  {
    if n < 10 then [DigitChar(n)] else NatToString(n / 10) + [DigitChar(n % 10)]
  }

  /** `String(n)` for an integer. */
  function IntToString(i: int): string
  {
    if i < 0 then "-" + NatToString(-i) else NatToString(i)
  }

  predicate AllDigits(s: string)
  {
    forall i :: 0 <= i < |s| ==> IsDigit(s[i])
  }

  /** The value of a string of decimal digits. */
  function DigitsValue(s: string): nat
    requires AllDigits(s)
  {
    if s == [] then 0 else DigitsValue(s[..|s| - 1]) * 10 + DigitValue(s[|s| - 1])
  }

  /**
   * `Number(s)` for a string: "" is 0, an optional minus sign followed by
   * decimal digits is that integer, anything else is NaN (None).
   */
  function ParseNumber(s: string): Option<int>
  {
    if s == [] then Some(0)
    else if s[0] == '-' && |s| > 1 && AllDigits(s[1..]) then Some(-(DigitsValue(s[1..]) as int))
    else if AllDigits(s) then Some(DigitsValue(s))
    else None
  }

  /**
   * `Number(v)` : None stands for NaN, which every comparison rejects. An
   * array or object is first turned into its string, so `[]` is 0, `[7]` is
   * 7 and `[1, 2]` is NaN.
   */
  function ToNumber(v: Value): Option<int>
  {
    match v
    case VNull => Some(0)
    case VBool(b) => Some(if b then 1 else 0)
    case VNum(n) => Some(n)
    case VStr(s) => ParseNumber(s)
    case VList(_) => ParseNumber(ToJsString(v))
    case VObj(_) => ParseNumber(ToJsString(v))
  }

  lemma {:induction false} DigitsOfNatToString(n: nat)
    ensures AllDigits(NatToString(n)) && DigitsValue(NatToString(n)) == n
    decreases n
  {
    var s := NatToString(n);
    if n >= 10 {
      DigitsOfNatToString(n / 10);
      assert s[..|s| - 1] == NatToString(n / 10);
    }
  }

  /** Printing an integer and reading it back with `Number` gives it back. */
  lemma NumberOfIntToString(i: int)
    ensures ParseNumber(IntToString(i)) == Some(i)
  {
    if i < 0 {
      var digits := NatToString(-i);
      DigitsOfNatToString(-i);
      var s := "-" + digits;
      assert s[1..] == digits;
      assert s[0] == '-' && |s| > 1;
      assert ParseNumber(s) == Some(-(DigitsValue(digits) as int));
    } else {
      DigitsOfNatToString(i);
      var s := NatToString(i);
      assert s[0] != '-' && s != [];
      assert ParseNumber(s) == Some(DigitsValue(s));
    }
  }

  /**
   * `Number` of an array: the empty array is 0, a one-element array is the
   * number its element prints as, and an object is NaN.
   */
  lemma NumberOfArray(x: Value, i: int, fs: seq<(string, Value)>)
    ensures ToNumber(VList([])) == Some(0)
    ensures ToNumber(VList([VNum(i)])) == Some(i)
    ensures x.VStr? ==> ToNumber(VList([x])) == ToNumber(x)
    ensures ToNumber(VList([VNull])) == Some(0)
    ensures ToNumber(VObj(fs)) == None
  {
    NumberOfIntToString(i);
    assert ToJsString(VList([VNum(i)])) == IntToString(i);
    assert ToJsString(VList([VNull])) == "";
    if x.VStr? {
      assert ToJsString(VList([x])) == x.s;
    }
    assert "[object Object]"[0] == '[';
  }

  // ---------------------------------------------------------------------
  // String(v) and JSON.stringify(v)

  function Join(parts: seq<string>, sep: string): string
  {
    if parts == [] then ""
    else if |parts| == 1 then parts[0]
    else parts[0] + sep + Join(parts[1..], sep)
  }

  /**
   * `String(v)` : arrays join their elements with "," (null elements print
   * as ""), every other object prints as "[object Object]".
   */
  function ToJsString(v: Value): string
  {
    match v
    case VNull => "null"
    case VBool(b) => if b then "true" else "false"
    case VNum(n) => IntToString(n)
    case VStr(s) => s
    case VList(xs) =>
      Join(seq(|xs|, i requires 0 <= i < |xs| => if xs[i].VNull? then "" else ToJsString(xs[i])), ",")
    case VObj(_) => "[object Object]"
  }

  function HexDigit(d: nat): char
    requires d < 16
  {
    "0123456789abcdef"[d]
  }

  /** The escape JSON.stringify writes for one character of a string. */
  function EscapeChar(c: char): string
  {
    if c == '"' then "\\\""
    else if c == '\\' then "\\\\"
    else if c == '\n' then "\\n"
    else if c == '\r' then "\\r"
    else if c == '\t' then "\\t"
    else if c == 8 as char then "\\b"
    else if c == 12 as char then "\\f"
    else if c < ' ' then "\\u00" + [HexDigit(c as int / 16), HexDigit(c as int % 16)]
    else [c]
  }

  function Escape(s: string): string
  {
    if s == [] then "" else EscapeChar(s[0]) + Escape(s[1..])
  }

  function Quote(s: string): string
  {
    "\"" + Escape(s) + "\""
  }

  /** `JSON.stringify(v)` */
  function Stringify(v: Value): string
  {
    match v
    case VNull => "null"
    case VBool(b) => if b then "true" else "false"
    case VNum(n) => IntToString(n)
    case VStr(s) => Quote(s)
    case VList(xs) =>
      "[" + Join(seq(|xs|, i requires 0 <= i < |xs| => Stringify(xs[i])), ",") + "]"
    case VObj(fs) =>
      "{" + Join(seq(|fs|, i requires 0 <= i < |fs| => Quote(fs[i].0) + ":" + Stringify(fs[i].1)), ",") + "}"
  }
}
