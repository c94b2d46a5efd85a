/** JavaScript values as they arrive from `JSON.parse`, plus `undefined`
    (the value of a missing property), and the few JavaScript operators
    the request handlers apply to them: truthiness, `x || d`, property
    reads, the `'k' in args` test and template-literal conversion, which
    can throw. */
module Json {

  datatype Option<+T> = None | Some(value: T)

  /** A JSON value; `Undefined` stands for JavaScript's `undefined`.
      Numbers are mathematical reals: `JSON.parse` never yields NaN or
      an infinity. */
  datatype Value =
    | Undefined
    | Null
    | Bool(b: bool)
    | Num(n: real)
    | Str(s: string)
    | Arr(items: seq<Value>)
    | Obj(fields: map<string, Value>)

  /** JavaScript truthiness: `undefined`, `null`, `false`, `0` and `""`
      are falsy, everything else (every array and object) is truthy. */
  predicate Truthy(v: Value) {
    match v
    case Undefined => false
    case Null => false
    case Bool(b) => b
    case Num(n) => n != 0.0
    case Str(s) => s != ""
    case Arr(_) => true
    case Obj(_) => true
  }

  /** `v || fallback`: the left operand when it is truthy, else the right one. */
  function OrElse(v: Value, fallback: Value): (r: Value)
    ensures Truthy(v) ==> r == v
    ensures !Truthy(v) ==> r == fallback
  {
    if Truthy(v) then v else fallback
  }

  /** `v[key]` for an own property of a parsed value; every other read
      (a missing key, a primitive, an array) gives `undefined` for the
      keys the handlers read. Callers only read properties where
      JavaScript would not throw (never of `null` or `undefined`). */
  function Prop(v: Value, key: string): Value {
    match v
    case Obj(fields) => if key in fields then fields[key] else Undefined
    case _ => Undefined
  }

  /** Destructuring `const { a, b } = v` throws exactly on `null` and
      `undefined`. */
  predicate Destructurable(v: Value) {
    !v.Undefined? && !v.Null?
  }

  /** The guard `args && typeof args === 'object' && (key in args)` that
      every tool case negates: only a parsed object can hold one of the
      keys the tools require. */
  predicate HasKey(args: Value, key: string) {
    args.Obj? && key in args.fields
  }

  /** The whole guard `args && typeof args === 'object' && ('k1' in args)
      && ('k2' in args) ...` of a tool case: every key is present. */
  predicate HasKeys(args: Value, keys: seq<string>) {
    forall k :: k in keys ==> HasKey(args, k)
  }

  /** Whether `${v}` succeeds. Converting an object calls its
      `toString`; a parsed object with an own `toString` key holds a
      value that is not callable there, and its inherited `valueOf`
      returns the object itself, so the conversion throws a TypeError.
      An array converts by joining its elements, so it fails when one of
      them does. */
  predicate Convertible(v: Value)
    decreases v
  {
    match v
    case Obj(fields) => "toString" !in fields
    case Arr(items) => forall i :: 0 <= i < |items| ==> Convertible(items[i])
    case _ => true
  }

  /** `${v}` in a template literal, where it does not throw. Number
      formatting is the host's (`numberText`); an array shows its
      elements joined by commas, with `null` and `undefined` elements
      shown empty. */
  function Text(numberText: real -> string, v: Value): (r: string)
    requires Convertible(v)
    ensures v.Str? ==> r == v.s
    ensures v.Obj? ==> r == "[object Object]"
    decreases v
  {
    match v
    case Undefined => "undefined"
    case Null => "null"
    case Bool(b) => if b then "true" else "false"
    case Num(n) => numberText(n)
    case Str(s) => s
    case Arr(items) =>
      Join(seq(|items|, i requires 0 <= i < |items| && Convertible(items[i]) =>
        if items[i].Undefined? || items[i].Null? then "" else Text(numberText, items[i])))
    case Obj(_) => "[object Object]"
  }

  /** `parts.join(',')`. */
  function Join(parts: seq<string>): string {
    if parts == [] then ""
    else if |parts| == 1 then parts[0]
    else parts[0] + "," + Join(parts[1..])
  }
}
