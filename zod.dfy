/** The schema rules the server tools declare with zod, restated as functions on JavaScript
    values. A schema's verdict on a value is a clean value, a value with non-fatal issues (a
    failed length check or refinement: zod's "dirty" status) or an abort (a wrong type or enum
    value); `schema.parse` returns the value only when it is clean and otherwise throws a
    ZodError carrying every issue found, in the order the schema checks them. */
module Zod {
  import opened Js

  /** A step in the path of an issue: an object key or an array index. */
  datatype Key = Field(name: string) | Index(index: nat)

  datatype IssueKind =
    | InvalidType
    | InvalidEnumValue
    | TooSmall(message: Option<string>)  // `.min(n, message)` on a string or an array
    | WrongLength                        // `.length(n)` on an array
    | Custom(text: string)               // a failed `.refine(check, { message })`

  datatype Issue = Issue(path: seq<Key>, kind: IssueKind)

  datatype Parse = Ok(value: Value) | Dirty(value: Value, issues: seq<Issue>) | Aborted(issues: seq<Issue>)

  function IssuesOf(p: Parse): seq<Issue> {
    match p
    case Ok(_) => []
    case Dirty(_, issues) => issues
    case Aborted(issues) => issues
  }

  /** The value a verdict carries on (undefined once aborted). */
  function ValueOf(p: Parse): Value {
    if p.Aborted? then Undefined else p.value
  }

  function Abort(path: seq<Key>, kind: IssueKind): Parse {
    Aborted([Issue(path, kind)])
  }

  function At(path: seq<Key>, k: string): seq<Key> {
    path + [Field(k)]
  }

  // ----- Primitive schemas -----

  /** `z.string()` */
  function String(v: Value, path: seq<Key>): Parse {
    if v.Str? then Ok(v) else Abort(path, InvalidType)
  }

  /** `z.string().min(1, message)`: an empty string is only a non-fatal issue. */
  function NonEmpty(v: Value, path: seq<Key>, message: Option<string>): Parse {
    if !v.Str? then Abort(path, InvalidType)
    else if v.s == "" then Dirty(v, [Issue(path, TooSmall(message))])
    else Ok(v)
  }

  /** `z.number()` (NaN, which zod refuses, is not a value of this model). */
  function Number(v: Value, path: seq<Key>): Parse {
    if IsNumber(v) then Ok(v) else Abort(path, InvalidType)
  }

  /** `z.boolean()` */
  function Boolean(v: Value, path: seq<Key>): Parse {
    if v.Bool? then Ok(v) else Abort(path, InvalidType)
  }

  /** `z.enum(options)`: a string that is not an option is a different issue from a non-string. */
  function Enum(v: Value, path: seq<Key>, options: seq<string>): Parse {
    if v.Str? && v.s in options then Ok(v)
    else Abort(path, if v.Str? then InvalidEnumValue else InvalidType)
  }

  /** `z.record(z.any())`: any plain object, kept as it is. */
  function Record(v: Value, path: seq<Key>): Parse {
    if v.Obj? then Ok(v) else Abort(path, InvalidType)
  }

  /** The values `z.string().optional()`, `z.number().optional()` and `z.boolean().optional()`
      accept. */
  predicate OptionalString(v: Value) {
    v.Undefined? || v.Str?
  }

  predicate OptionalNumber(v: Value) {
    v.Undefined? || IsNumber(v)
  }

  predicate OptionalBool(v: Value) {
    v.Undefined? || v.Bool?
  }

  // ----- Modifiers (the inner verdict is the one for the same value) -----

  /** `.optional()` */
  function Optional(v: Value, inner: Parse): Parse {
    if v.Undefined? then Ok(Undefined) else inner
  }

  /** `.nullable()` */
  function Nullable(v: Value, inner: Parse): Parse {
    if v.Null? then Ok(Null) else inner
  }

  /** `.default(d)` and `.optional().default(d)`: undefined becomes `d` (every default the
      tools declare satisfies its own schema). */
  function Default(v: Value, d: Value, inner: Parse): Parse {
    if v.Undefined? then Ok(d) else inner
  }

  /** `.refine(check, { message })`: runs unless the inner verdict aborted, and a failure is
      non-fatal. */
  function Refine(inner: Parse, path: seq<Key>, check: Value -> bool, message: string): Parse {
    if inner.Aborted? || check(inner.value) then inner
    else Dirty(inner.value, IssuesOf(inner) + [Issue(path, Custom(message))])
  }

  // ----- Composite schemas -----

  /** Every issue of the verdicts, in order. */
  function AllIssues(parts: seq<Parse>): seq<Issue> {
    if parts == [] then [] else IssuesOf(parts[0]) + AllIssues(parts[1..])
  }

  /** Collects the verdicts of the parts: aborted if one aborted, clean if there are no
      issues of the composite's own and every part is clean, otherwise dirty. */
  function Combine(own: seq<Issue>, parts: seq<Parse>, value: Value): (r: Parse)
    ensures r.Ok? <==> own == [] && forall i | 0 <= i < |parts| :: parts[i].Ok?
    ensures r.Aborted? <==> exists i | 0 <= i < |parts| :: parts[i].Aborted?
    ensures IssuesOf(r) == if r.Ok? then [] else own + AllIssues(parts)
    ensures !r.Aborted? ==> r.value == value
  {
    if exists i | 0 <= i < |parts| :: parts[i].Aborted? then Aborted(own + AllIssues(parts))
    else if own == [] && forall i | 0 <= i < |parts| :: parts[i].Ok? then Ok(value)
    else Dirty(value, own + AllIssues(parts))
  }

  datatype LengthCheck = AnyLength | AtLeast(min: nat, message: Option<string>) | Exactly(count: nat)

  function LengthIssues(n: nat, path: seq<Key>, check: LengthCheck): seq<Issue> {
    match check
    case AnyLength => []
    case AtLeast(min, message) => if n < min then [Issue(path, TooSmall(message))] else []
    case Exactly(count) => if n != count then [Issue(path, WrongLength)] else []
  }

  function Elements(items: seq<Value>, path: seq<Key>, element: (Value, seq<Key>) -> Parse): (r: seq<Parse>)
    ensures |r| == |items| && forall i | 0 <= i < |items| :: r[i] == element(items[i], path + [Index(i)])
  {
    seq(|items|, i requires 0 <= i < |items| => element(items[i], path + [Index(i)]))
  }

  function Values(parts: seq<Parse>): (r: seq<Value>)
    ensures |r| == |parts| && forall i | 0 <= i < |parts| :: r[i] == ValueOf(parts[i])
  {
    seq(|parts|, i requires 0 <= i < |parts| => ValueOf(parts[i]))
  }

  /** `z.array(element)` with its length check: the length is checked first, then every
      element in order. */
  function ArrayOf(v: Value, path: seq<Key>, element: (Value, seq<Key>) -> Parse, check: LengthCheck): Parse {
    if !v.Arr? then Abort(path, InvalidType)
    else
      var parts := Elements(v.items, path, element);
      Combine(LengthIssues(|v.items|, path, check), parts, Arr(Values(parts)))
  }

  /** The object `z.object` returns: each shape key whose parsed value is defined or which the
      input has, and with `.passthrough()` every other input key as it is. */
  function Assemble(input: map<string, Value>, shape: seq<(string, Parse)>, passthrough: bool): map<string, Value> {
    if shape == [] then (if passthrough then input else map[])
    else
      var rest := Assemble(input, shape[1..], passthrough);
      var (k, p) := shape[0];
      if !p.Aborted? && (p.value != Undefined || k in input) then rest[k := p.value]
      else rest - {k}
  }

  function Verdicts(shape: seq<(string, Parse)>): (r: seq<Parse>)
    ensures |r| == |shape| && forall i | 0 <= i < |shape| :: r[i] == shape[i].1
  {
    seq(|shape|, i requires 0 <= i < |shape| => shape[i].1)
  }

  /** `z.object(shape)` or `.passthrough()`, given the verdict of each shape key on the
      input's property of that name. Anything but a plain object aborts. */
  function ObjectOf(v: Value, path: seq<Key>, shape: seq<(string, Parse)>, passthrough: bool): Parse {
    if !v.Obj? then Abort(path, InvalidType)
    else Combine([], Verdicts(shape), Obj(Assemble(v.fields, shape, passthrough)))
  }

  // ----- Properties -----

  /** An object is clean exactly when it is a plain object and every key's verdict is clean. */
  lemma ObjectClean(v: Value, path: seq<Key>, shape: seq<(string, Parse)>, passthrough: bool)
    ensures ObjectOf(v, path, shape, passthrough).Ok? <==> v.Obj? && forall i | 0 <= i < |shape| :: shape[i].1.Ok?
  {
  }

  /** What the assembled object holds under a shape key: the parsed value, present when it is
      defined or the input has the key (for the first entry of that key). */
  lemma {:induction false} AssembleShapeKey(input: map<string, Value>, shape: seq<(string, Parse)>, passthrough: bool, i: nat)
    requires i < |shape| && !shape[i].1.Aborted?
    requires forall j | 0 <= j < i :: shape[j].0 != shape[i].0
    ensures var out := Assemble(input, shape, passthrough);
      (shape[i].0 in out <==> shape[i].1.value != Undefined || shape[i].0 in input)
      && (shape[i].0 in out ==> out[shape[i].0] == shape[i].1.value)
  {
    if i > 0 {
      var tail := shape[1..];
      assert tail[i - 1] == shape[i];
      forall j | 0 <= j < i - 1
        ensures tail[j].0 != tail[i - 1].0
      {
        assert tail[j] == shape[j + 1];
      }
      AssembleShapeKey(input, tail, passthrough, i - 1);
    }
  }

  /** The same, read off a clean object verdict: the entry's own verdict is clean, and the
      object holds its value as above. */
  lemma ObjectEntry(v: Value, path: seq<Key>, shape: seq<(string, Parse)>, passthrough: bool, i: nat)
    requires ObjectOf(v, path, shape, passthrough).Ok? && i < |shape|
    requires forall j | 0 <= j < i :: shape[j].0 != shape[i].0
    ensures v.Obj? && shape[i].1.Ok?
    ensures var out := ObjectOf(v, path, shape, passthrough).value.fields;
      (shape[i].0 in out <==> shape[i].1.value != Undefined || shape[i].0 in v.fields)
      && (shape[i].0 in out ==> out[shape[i].0] == shape[i].1.value)
  {
    assert Verdicts(shape)[i] == shape[i].1;
    AssembleShapeKey(v.fields, shape, passthrough, i);
  }

  /** Unless the object aborted, reading a shape key of the result gives that key's parsed
      value (undefined when the key is left out). */
  lemma ObjectProp(v: Value, path: seq<Key>, shape: seq<(string, Parse)>, passthrough: bool, i: nat)
    requires !ObjectOf(v, path, shape, passthrough).Aborted? && i < |shape|
    requires forall j | 0 <= j < i :: shape[j].0 != shape[i].0
    ensures v.Obj? && !shape[i].1.Aborted?
    ensures Prop(ObjectOf(v, path, shape, passthrough).value, shape[i].0) == shape[i].1.value
  {
    assert Verdicts(shape)[i] == shape[i].1;
    AssembleShapeKey(v.fields, shape, passthrough, i);
  }

  /** Unless an array verdict aborted, the input is an array and so is the value. */
  lemma ArrayKept(v: Value, path: seq<Key>, element: (Value, seq<Key>) -> Parse, check: LengthCheck)
    requires !ArrayOf(v, path, element, check).Aborted?
    ensures v.Arr? && ArrayOf(v, path, element, check).value.Arr?
  {
  }

  /** A key not in the shape is kept from the input with `.passthrough()` and dropped without. */
  lemma {:induction false} AssembleOtherKey(input: map<string, Value>, shape: seq<(string, Parse)>, passthrough: bool, k: string)
    requires forall j | 0 <= j < |shape| :: shape[j].0 != k
    ensures var out := Assemble(input, shape, passthrough);
      (k in out <==> passthrough && k in input) && (k in out ==> out[k] == input[k])
  {
    if shape != [] {
      var tail := shape[1..];
      forall j | 0 <= j < |tail|
        ensures tail[j].0 != k
      {
        assert tail[j] == shape[j + 1];
      }
      AssembleOtherKey(input, tail, passthrough, k);
    }
  }

  /** An array is clean exactly when it is an array of acceptable length whose every element
      is clean. */
  lemma ArrayClean(v: Value, path: seq<Key>, element: (Value, seq<Key>) -> Parse, check: LengthCheck)
    ensures ArrayOf(v, path, element, check).Ok? <==>
      v.Arr? && LengthIssues(|v.items|, path, check) == []
      && forall i | 0 <= i < |v.items| :: element(v.items[i], path + [Index(i)]).Ok?
  {
    if v.Arr? {
      var parts := Elements(v.items, path, element);
      assert forall i | 0 <= i < |v.items| :: parts[i] == element(v.items[i], path + [Index(i)]);
    }
  }
}
