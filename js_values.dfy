/** The parts of JavaScript's value semantics that the prompt templates rely on:
    truthiness, string conversion inside template literals, the `||` operator,
    destructuring defaults, and property lookup in a constant table of strings. */
module JsValues {

  datatype Option<+T> = None | Some(value: T) {
    function GetOr(default: T): T {
      match this
      case Some(v) => v
      case None => default
    }
  }

  /** A value a request's options bag can hold. Numbers, objects and arrays are
      not modelled. */
  datatype Value = Undefined | Null | Bool(b: bool) | Str(s: string)

  /** JavaScript truthiness: `undefined`, `null`, `false` and `""` are falsy. */
  predicate Truthy(v: Value) {
    match v
    case Undefined => false
    case Null => false
    case Bool(b) => b
    case Str(s) => s != ""
  }

  /** `String(v)`: what `${v}` inserts into a template literal, and the property
      key that `table[v]` looks up. */
  function Render(v: Value): string {
    match v
    case Undefined => "undefined"
    case Null => "null"
    case Bool(b) => if b then "true" else "false"
    case Str(s) => s
  }

  /** A destructuring default `{ x = d } = options`: only a missing (`undefined`) value is replaced. */
  function Default(v: Value, d: Value): Value {
    if v.Undefined? then d else v
  }

  /** `v || d`: every falsy value is replaced. */
  function Or(v: Value, d: Value): Value {
    if Truthy(v) then v else d
  }

  /** `table[key]` on an object literal whose properties are strings; a missing
      property reads as `undefined`. */
  function Lookup(table: map<string, string>, key: Value): Value {
    var k := Render(key);
    if k in table then Str(table[k]) else Undefined
  }

  /** A string table whose entries are all non-empty, as every table in the tools is. */
  predicate NonEmptyEntries(table: map<string, string>) {
    forall k :: k in table ==> table[k] != ""
  }

  /** A destructuring default and `||` agree exactly when the value is missing,
      truthy, or already the default: they differ on `null`, `false` and `""`. */
  lemma DefaultVersusOr(v: Value, d: Value)
    ensures Default(v, d) == Or(v, d) <==> (v.Undefined? || Truthy(v) || v == d)
  {
  }

  /** In a table of non-empty strings, the lookup is truthy exactly for the
      table's keys, and then renders as the entry; a miss renders "undefined". */
  lemma LookupTruthy(table: map<string, string>, key: Value)
    requires NonEmptyEntries(table)
    ensures Truthy(Lookup(table, key)) <==> Render(key) in table
    ensures Render(key) in table ==> Render(Lookup(table, key)) == table[Render(key)]
    ensures Render(key) !in table ==> Render(Lookup(table, key)) == "undefined"
  {
  }
}
