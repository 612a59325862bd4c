/** JavaScript values as the bridge handlers see them, and the coercions they rely on:
    truthiness, `||`, `??`, `typeof`, strict equality, property reads and the
    string conversion that template literals perform. */
module Js {

  /** A JSON-shaped JavaScript value. Integral numbers are exact; a finite non-integral
      number is carried by its decimal text (it is never zero, so it is always truthy).
      Object key order is not modelled. */
  datatype Value =
    | Undefined
    | Null
    | Bool(b: bool)
    | Num(n: int)
    | Frac(text: string)
    | Str(s: string)
    | Arr(items: seq<Value>)
    | Obj(fields: map<string, Value>)

  datatype Option<T> = None | Some(value: T)

  /** What a `throw` (or a rejected promise) carries: an `Error` with its message, or any other
      value, `null` and `undefined` included. */
  datatype Thrown = Error(message: string) | NonError(value: Value)

  /** How a call into code outside the model ends: a value, or a throw (a rejected promise). */
  datatype Outcome = Returned(value: Value) | Threw(thrown: Thrown)

  /** `error instanceof Error ? error.message : 'Unknown error'` */
  function MessageOf(t: Thrown): string {
    match t
    case Error(m) => m
    case NonError(_) => "Unknown error"
  }

  /** A thrown `null` or `undefined`, whose `message` cannot be read. */
  predicate NullishThrow(t: Thrown) {
    t.NonError? && Nullish(t.value)
  }

  /** ToBoolean: the falsy values are undefined, null, false, 0 and the empty string. */
  predicate Truthy(v: Value) {
    match v
    case Undefined => false
    case Null => false
    case Bool(b) => b
    case Num(n) => n != 0
    case Frac(_) => true
    case Str(s) => s != ""
    case Arr(_) => true
    case Obj(_) => true
  }

  /** The values `??` and `?.` treat as missing. */
  predicate Nullish(v: Value) {
    v.Undefined? || v.Null?
  }

  /** `a || d` */
  function Or(a: Value, d: Value): Value {
    if Truthy(a) then a else d
  }

  /** `a ?? d` */
  function Coalesce(a: Value, d: Value): Value {
    if Nullish(a) then d else a
  }

  /** `a !== false`, the idiom the handlers use for options that default to true. */
  function NotFalse(a: Value): Value {
    Bool(a != Bool(false))
  }

  /** The two defaulting operators disagree exactly on the falsy values that are not
      nullish (0, '' and false), and only when the default differs from them. */
  lemma OrCoalesceDisagreement(a: Value, d: Value)
    ensures Or(a, d) != Coalesce(a, d) <==> (!Truthy(a) && !Nullish(a) && a != d)
    ensures !Truthy(a) && !Nullish(a) <==> a in {Num(0), Str(""), Bool(false)}
  {
  }

  function TypeOf(v: Value): string {
    match v
    case Undefined => "undefined"
    case Null => "object"
    case Bool(_) => "boolean"
    case Num(_) => "number"
    case Frac(_) => "number"
    case Str(_) => "string"
    case Arr(_) => "object"
    case Obj(_) => "object"
  }

  predicate IsString(v: Value) { v.Str? }

  predicate IsNumber(v: Value) { v.Num? || v.Frac? }

  /** `!x || typeof x !== 'string'` fails exactly for the non-empty strings. */
  predicate NonEmptyString(v: Value) {
    Truthy(v) && TypeOf(v) == "string"
  }

  lemma NonEmptyStringIsStr(v: Value)
    ensures NonEmptyString(v) <==> (v.Str? && v.s != "")
  {
  }

  /** `===`. Two arrays or objects are never the same reference here: every array and
      object a handler compares was built or parsed separately. */
  predicate StrictEquals(a: Value, b: Value) {
    match a
    case Arr(_) => false
    case Obj(_) => false
    case _ => a == b
  }

  /** `v.k` and `v?.k` on a value that is not nullish: objects yield the field or undefined,
      every other value yields undefined (array and string properties are not modelled). */
  function Prop(v: Value, k: string): Value {
    match v
    case Obj(fields) => if k in fields then fields[k] else Undefined
    case _ => Undefined
  }

  /** `v.k1.k2` read through optional chaining. */
  function Path(v: Value, k1: string, k2: string): Value {
    Prop(Prop(v, k1), k2)
  }

  /** The message V8 gives the TypeError raised by reading a property of undefined or null. */
  function ReadErrorMessage(base: Value, k: string): string
    requires Nullish(base)
  {
    "Cannot read properties of " + (if base.Null? then "null" else "undefined") + " (reading '" + k + "')"
  }

  /** `error.message` on whatever was thrown: an `Error`'s message, the `message` property of
      any other value, or the TypeError of reading it off a thrown `null` or `undefined`. */
  function MessageRead(t: Thrown): (r: Outcome)
    ensures r.Threw? <==> NullishThrow(t)
    ensures NullishThrow(t) ==> r == Threw(Error(ReadErrorMessage(t.value, "message")))
    ensures t.Error? ==> r == Returned(Str(t.message))
    ensures t.NonError? && !Nullish(t.value) ==> r == Returned(Prop(t.value, "message"))
  {
    match t
    case Error(m) => Returned(Str(m))
    case NonError(v) => if Nullish(v) then Threw(Error(ReadErrorMessage(v, "message"))) else Returned(Prop(v, "message"))
  }

  /** Elements of an array value; anything else has none. */
  function Items(v: Value): seq<Value> {
    if v.Arr? then v.items else []
  }

  /** `v?.length` is truthy: non-empty arrays and strings, or an object with a truthy `length`. */
  predicate HasLength(v: Value) {
    match v
    case Arr(items) => |items| > 0
    case Str(s) => |s| > 0
    case Obj(_) => Truthy(Prop(v, "length"))
    case _ => false
  }

  /** `Array.isArray(v) && v.length > 0` */
  predicate NonEmptyArray(v: Value) {
    v.Arr? && |v.items| > 0
  }

  /** `{ ...v }` for an object value; spreading anything else yields `{}` here. */
  function Spread(v: Value): Value {
    if v.Obj? then v else Obj(map[])
  }

  // ----- String conversion (template literals) -----

  function DigitChar(d: nat): char
    requires d < 10
  {
    "0123456789"[d]
  }

  /** Decimal digits of a natural number, most significant first. */
  function NatDigits(n: nat): (r: string)
    ensures |r| > 0
    ensures forall i | 0 <= i < |r| :: '0' <= r[i] <= '9'
    ensures |r| > 1 ==> r[0] != '0'
    decreases n
  {
    if n < 10 then [DigitChar(n)] else NatDigits(n / 10) + [DigitChar(n % 10)]
  }

  /** The value of a string of decimal digits. */
  function DigitsValue(s: string): nat
    requires forall i | 0 <= i < |s| :: '0' <= s[i] <= '9'
    decreases |s|
  {
    if s == [] then 0 else DigitsValue(s[..|s| - 1]) * 10 + ((s[|s| - 1] as int) - ('0' as int))
  }

  /** Printing then reading back a natural number gives the number. */
  lemma {:induction false} NatDigitsRoundTrip(n: nat)
    ensures DigitsValue(NatDigits(n)) == n
    decreases n
  {
    if n >= 10 {
      NatDigitsRoundTrip(n / 10);
      var s := NatDigits(n);
      assert s[..|s| - 1] == NatDigits(n / 10);
    }
  }

  /** `String(n)` for an integer (the exponent form JavaScript uses from 1e21 on is not modelled). */
  function IntText(n: int): string {
    if n < 0 then "-" + NatDigits(-n) else NatDigits(n)
  }

  /** Element text inside `Array.prototype.join`: null and undefined become empty. */
  function ElementText(v: Value): string
    decreases v, 1
  {
    if Nullish(v) then "" else Text(v)
  }

  function JoinedText(items: seq<Value>): string
    decreases items
  {
    if items == [] then ""
    else if |items| == 1 then ElementText(items[0])
    else ElementText(items[0]) + "," + JoinedText(items[1..])
  }

  /** `${v}` */
  function Text(v: Value): string
    decreases v, 0
  {
    match v
    case Undefined => "undefined"
    case Null => "null"
    case Bool(b) => if b then "true" else "false"
    case Num(n) => IntText(n)
    case Frac(t) => t
    case Str(s) => s
    case Arr(items) => JoinedText(items)
    case Obj(_) => "[object Object]"
  }

  // ----- Whitespace (String.prototype.trim and the regular-expression class \s) -----

  /** WhiteSpace and LineTerminator code points of ECMAScript. */
  predicate IsSpace(c: char) {
    ('\U{0009}' <= c <= '\U{000D}') || c == ' ' || c == '\U{00A0}' || c == '\U{1680}'
    || ('\U{2000}' <= c <= '\U{200A}') || c == '\U{2028}' || c == '\U{2029}'
    || c == '\U{202F}' || c == '\U{205F}' || c == '\U{3000}' || c == '\U{FEFF}'
  }

  function TrimStart(s: string): (r: string)
    ensures |r| <= |s| && r == s[|s| - |r|..]
    ensures r != [] ==> !IsSpace(r[0])
  {
    if s != [] && IsSpace(s[0]) then TrimStart(s[1..]) else s
  }

  function TrimEnd(s: string): (r: string)
    ensures |r| <= |s| && r == s[..|r|]
    ensures r != [] ==> !IsSpace(r[|r| - 1])
  {
    if s != [] && IsSpace(s[|s| - 1]) then TrimEnd(s[..|s| - 1]) else s
  }

  /** Only whitespace is cut from the front. */
  lemma {:induction false} TrimStartCutsSpace(s: string)
    ensures forall i | 0 <= i < |s| - |TrimStart(s)| :: IsSpace(s[i])
  {
    if s != [] && IsSpace(s[0]) {
      TrimStartCutsSpace(s[1..]);
      forall i | 1 <= i < |s| - |TrimStart(s)|
        ensures IsSpace(s[i])
      {
        assert s[i] == s[1..][i - 1];
      }
    }
  }

  /** Only whitespace is cut from the back. */
  lemma {:induction false} TrimEndCutsSpace(s: string)
    ensures forall i | |TrimEnd(s)| <= i < |s| :: IsSpace(s[i])
  {
    if s != [] && IsSpace(s[|s| - 1]) {
      TrimEndCutsSpace(s[..|s| - 1]);
      forall i | |TrimEnd(s)| <= i < |s| - 1
        ensures IsSpace(s[i])
      {
        assert s[i] == s[..|s| - 1][i];
      }
    }
  }

  /** `s.trim()` */
  function Trim(s: string): string {
    TrimEnd(TrimStart(s))
  }

  /** `trim` keeps one contiguous piece of the input that neither starts nor ends with whitespace, and cuts only whitespace around it. */
  lemma TrimIsCore(s: string)
    ensures var r := Trim(s); var k := |s| - |TrimStart(s)|;
      k + |r| <= |s| && r == s[k..k + |r|]
      && (r == [] || (!IsSpace(r[0]) && !IsSpace(r[|r| - 1])))
      && (forall i | 0 <= i < k :: IsSpace(s[i]))
      && (forall i | k + |r| <= i < |s| :: IsSpace(s[i]))
  {
    TrimKeepsSlice(s);
    TrimEndsNotSpace(s);
    TrimStartCutsSpace(s);
    TrimCutsTail(s);
  }

  lemma TrimKeepsSlice(s: string)
    ensures var r := Trim(s); var k := |s| - |TrimStart(s)|;
      k + |r| <= |s| && r == s[k..k + |r|]
  {
    var t := TrimStart(s);
    var r := TrimEnd(t);
    SliceOfSuffix(s, t, r);
  }

  lemma TrimEndsNotSpace(s: string)
    ensures var r := Trim(s); r == [] || (!IsSpace(r[0]) && !IsSpace(r[|r| - 1]))
  {
    var t := TrimStart(s);
    var r := TrimEnd(t);
    if r != [] {
      assert r[0] == t[0];
    }
  }

  /** A prefix of a suffix is a slice. */
  lemma SliceOfSuffix(s: string, t: string, r: string)
    requires |t| <= |s| && t == s[|s| - |t|..]
    requires |r| <= |t| && r == t[..|r|]
    ensures var k := |s| - |t|; r == s[k..k + |r|]
  {
  }

  lemma TrimCutsTail(s: string)
    ensures var k := |s| - |TrimStart(s)|; forall i | k + |Trim(s)| <= i < |s| :: IsSpace(s[i])
  {
    var t := TrimStart(s);
    var k := |s| - |t|;
    TrimEndCutsSpace(t);
    forall i | k + |Trim(s)| <= i < |s|
      ensures IsSpace(s[i])
    {
      assert s[i] == t[i - k];
    }
  }
}
