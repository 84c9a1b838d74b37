/** JavaScript values as the route handlers and the page see them: the
    results of `JSON.parse` and of `parseFloat`, JavaScript truthiness, strict
    equality on numbers, property reads, and the white space that `trim` and
    the regular-expression class `\s` recognise. */
module JsValues {

  datatype Option<+T> = None | Some(value: T)

  /** A JavaScript number. Finite numbers are taken as exact reals (binary
      floating-point rounding is not modelled); NaN and the two infinities are
      kept because `parseFloat` and `JSON.parse` can produce them. */
  datatype Num = Fin(r: real) | NaN | PosInf | NegInf

  /** A value that `JSON.parse` can return. */
  datatype Value =
    | Null
    | Bool(b: bool)
    | Number(n: Num)
    | Str(s: string)
    | Arr(items: seq<Value>)
    | Obj(fields: map<string, Value>)

  /** JavaScript truthiness of a property read; `None` is `undefined`.
      Falsy are undefined, null, false, 0, NaN and the empty string. */
  predicate Truthy(v: Option<Value>)
    ensures Truthy(v) ==> v.Some? && !v.value.Null?
    ensures v.Some? && (v.value.Arr? || v.value.Obj?) ==> Truthy(v)
    ensures v.Some? && v.value.Str? ==> (Truthy(v) <==> v.value.s != [])
  {
    match v
    case None => false
    case Some(Null) => false
    case Some(Bool(b)) => b
    case Some(Number(n)) => n != NaN && n != Fin(0.0)
    case Some(Str(s)) => s != []
    case Some(Arr(_)) => true
    case Some(Obj(_)) => true
  }

  /** `a === b` on two numbers: NaN equals nothing, not even itself; there is
      no tolerance. */
  predicate StrictEquals(a: Num, b: Num)
  {
    a != NaN && a == b
  }

  lemma StrictEqualsIsExact(a: Num, b: Num)
    ensures StrictEquals(a, b) <==> (a == b && !a.NaN?)
    ensures !StrictEquals(NaN, b) && !StrictEquals(a, NaN)
    ensures StrictEquals(a, b) <==> StrictEquals(b, a)
  {
  }

  /** `v.key` on a value that is not null (reading a property of null throws).
      None of the keys the handlers read is a built-in property of arrays,
      strings, numbers or booleans, so only objects yield a value. */
  function Get(v: Value, key: string): (r: Option<Value>)
    requires !v.Null?
    ensures r.Some? <==> v.Obj? && key in v.fields
    ensures r.Some? ==> r.value == v.fields[key]
  {
    if v.Obj? && key in v.fields then Some(v.fields[key]) else None
  }

  /** White space and line terminators as ECMAScript defines them for
      `String.prototype.trim` and for `\s` in regular expressions. */
  predicate IsWhitespace(c: char)
  {
    c == '\t' || c == '\n' || c == '\U{0B}' || c == '\U{0C}' || c == '\r' ||
    c == ' ' || c == '\U{A0}' || c == '\U{1680}' ||
    ('\U{2000}' <= c <= '\U{200A}') ||
    c == '\U{2028}' || c == '\U{2029}' || c == '\U{202F}' || c == '\U{205F}' ||
    c == '\U{3000}' || c == '\U{FEFF}'
  }
}
