/** PHP values as the makers and generators see them: nullable strings,
    booleans from confirmation questions, arrays of template variables,
    and PHP's notion of a "truthy" value used by every `if ($x)` in the
    makers. */
module PhpValues {

  datatype Option<+T> = None | Some(value: T)

  datatype Result<+T, +E> = Success(value: T) | Failure(error: E)

  /** A value stored in a command argument or passed as a template
      variable. `Array` is a PHP array with string keys (its order is not
      observable in this model). `Object` is an object instance, known by
      its class name (the console style handed to the generators). */
  datatype Value =
    | Null
    | Text(s: string)
    | Flag(b: bool)
    | Array(entries: map<string, Value>)
    | Object(className: string)

  /** PHP's boolean conversion of a string: only '' and '0' are false. */
  predicate TruthyString(s: string) {
    s != "" && s != "0"
  }

  /** PHP's boolean conversion of a nullable string (`?string`). */
  predicate TruthyOptString(s: Option<string>) {
    s.Some? && TruthyString(s.value)
  }

  /** PHP's boolean conversion of a value. */
  predicate Truthy(v: Value) {
    match v
    case Null => false
    case Text(s) => TruthyString(s)
    case Flag(b) => b
    case Array(m) => |m| > 0
    case Object(_) => true
  }
}
